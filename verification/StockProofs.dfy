/** Stock is conserved: every way an order moves keeps both counters of every listing accounted for. */
module StockProofs {
  import opened Rows
  import opened Sums
  import opened Stock
  import Checkouts

  // How much of its quantity an order takes off each counter in a given status.
  function FloatingTaken(order: Order): int {
    if order.status.Cancelled? then 0 else order.quantity
  }

  function ActualTaken(order: Order): int {
    if Uncommitted(order.status) || order.status.Cancelled? then 0 else order.quantity
  }

  // The listing gives or takes what the order's move costs, and its shop status follows.
  predicate Adjusted(before: Listing, after: Listing, floating: int, actual: int) {
    && after.floating == before.floating + floating
    && after.actual == before.actual + actual
    && after.supplied == before.supplied
    && after.price == before.price
    && (after.status == DeriveStatus(before.status, after.actual, after.floating) ||
        (after.status == before.status && floating == 0 && actual == 0))
  }

  lemma HeldNonNegative(orders: map<Id, Order>, l: Id)
    ensures Sum(orders, HeldOn(l)) >= 0
  {
    SumNonNegative(orders, HeldOn(l));
  }

  // An adjusted listing is still in order if the sums over its orders moved by the same amounts.
  lemma AdjustedOk(before: Listing, after: Listing, floating: int, actual: int, held: int, committed: int, held': int,
                   committed': int)
    requires ListingOk(before, held, committed) && Adjusted(before, after, floating, actual)
    requires held' == held + actual - floating && committed' == committed - actual
    requires held' >= 0 && after.floating >= 0
    ensures ListingOk(after, held', committed')
  {
  }

  lemma MovedRow(before: Listing, after: Listing, orders: map<Id, Order>, o: Id, row: Order, l: Id)
    requires o in orders && row.listing == orders[o].listing && row.quantity == orders[o].quantity
    requires ListingOk(before, Sum(orders, HeldOn(l)), Sum(orders, CommittedOn(l)))
    requires if l == row.listing
             then after.floating >= 0 && Adjusted(before, after, FloatingTaken(orders[o]) - FloatingTaken(row),
                                                  ActualTaken(orders[o]) - ActualTaken(row))
             else after == before
    ensures ListingOk(after, Sum(orders[o := row], HeldOn(l)), Sum(orders[o := row], CommittedOn(l)))
  {
    SumUpdate(orders, HeldOn(l), o, row);
    SumUpdate(orders, CommittedOn(l), o, row);
    if l == row.listing {
      HeldNonNegative(orders[o := row], l);
      AdjustedOk(before, after, FloatingTaken(orders[o]) - FloatingTaken(row), ActualTaken(orders[o]) - ActualTaken(row),
                 Sum(orders, HeldOn(l)), Sum(orders, CommittedOn(l)), Sum(orders[o := row], HeldOn(l)),
                 Sum(orders[o := row], CommittedOn(l)));
    }
  }

  lemma MoveKeepsStock(listings: map<Id, Listing>, listings': map<Id, Listing>, orders: map<Id, Order>, o: Id,
                       row: Order)
    requires StockOk(listings, orders) && o in orders
    requires row.listing == orders[o].listing && row.quantity == orders[o].quantity
    requires listings'.Keys == listings.Keys
    requires forall l | l in listings && l != row.listing :: listings'[l] == listings[l]
    requires row.listing in listings' &&
             Adjusted(listings[row.listing], listings'[row.listing], FloatingTaken(orders[o]) - FloatingTaken(row),
                      ActualTaken(orders[o]) - ActualTaken(row))
    requires listings'[row.listing].floating >= 0
    ensures StockOk(listings', orders[o := row])
  {
    hide ListingOk, HeldOn, CommittedOn, FloatingTaken, ActualTaken;
    forall l | l in listings' {
      MovedRow(listings[l], listings'[l], orders, o, row, l);
    }
  }

  lemma RemoveKeepsStock(listings: map<Id, Listing>, orders: map<Id, Order>, o: Id)
    requires StockOk(listings, orders) && o in orders && orders[o].status.Pending?
    ensures StockOk(ReleaseStock(listings, orders[o]), orders - {o})
  {
    var row := orders[o];
    var listings' := ReleaseStock(listings, row);
    forall l | l in listings'
      ensures listings'[l].price > 0
      ensures ListingOk(listings'[l], Sum(orders - {o}, HeldOn(l)), Sum(orders - {o}, CommittedOn(l)))
    {
      SumTake(orders, HeldOn(l), o);
      SumTake(orders, CommittedOn(l), o);
      if l == row.listing {
        HeldNonNegative(orders - {o}, l);
        AdjustedOk(listings[l], listings'[l], row.quantity, 0, Sum(orders, HeldOn(l)), Sum(orders, CommittedOn(l)),
                   Sum(orders - {o}, HeldOn(l)), Sum(orders - {o}, CommittedOn(l)));
      }
    }
  }

  // Changes that leave every order's listing, quantity and stock side alone.
  ghost predicate SameStock(orders: map<Id, Order>, orders': map<Id, Order>) {
    && orders'.Keys == orders.Keys
    && forall o | o in orders ::
         && orders'[o].listing == orders[o].listing && orders'[o].quantity == orders[o].quantity
         && Uncommitted(orders'[o].status) == Uncommitted(orders[o].status)
         && orders'[o].status.Cancelled? == orders[o].status.Cancelled?
  }

  lemma SameStockSums(orders: map<Id, Order>, orders': map<Id, Order>, l: Id)
    requires SameStock(orders, orders')
    ensures Sum(orders', HeldOn(l)) == Sum(orders, HeldOn(l))
    ensures Sum(orders', CommittedOn(l)) == Sum(orders, CommittedOn(l))
  {
    SumSame(orders, HeldOn(l), orders', HeldOn(l));
    SumSame(orders, CommittedOn(l), orders', CommittedOn(l));
  }

  lemma RelabelKeepsStock(listings: map<Id, Listing>, orders: map<Id, Order>, orders': map<Id, Order>)
    requires StockOk(listings, orders) && SameStock(orders, orders')
    ensures StockOk(listings, orders')
  {
    hide ListingOk, HeldOn, CommittedOn;
    forall l | l in listings {
      SameStockSums(orders, orders', l);
    }
  }

  // ----- Placing -----

  lemma AddKeepsStock(listings: map<Id, Listing>, verified: set<Id>, orders: map<Id, Order>, o: Id, row: Order)
    requires StockOk(listings, orders) && o !in orders
    requires row.quantity > 0 && row.status.AwaitingPayment?
    requires TryReserve(listings, verified, row.listing, row.quantity).Some?
    ensures StockOk(TryReserve(listings, verified, row.listing, row.quantity).value, orders[o := row])
  {
    var listings' := TryReserve(listings, verified, row.listing, row.quantity).value;
    var orders' := orders[o := row];
    forall l | l in listings'
      ensures listings'[l].price > 0
      ensures ListingOk(listings'[l], Sum(orders', HeldOn(l)), Sum(orders', CommittedOn(l)))
    {
      SumInsert(orders, HeldOn(l), o, row);
      SumInsert(orders, CommittedOn(l), o, row);
      if l == row.listing {
        HeldNonNegative(orders', l);
        AdjustedOk(listings[l], listings'[l], 0 - row.quantity, 0, Sum(orders, HeldOn(l)), Sum(orders, CommittedOn(l)),
                   Sum(orders', HeldOn(l)), Sum(orders', CommittedOn(l)));
      }
    }
  }

  lemma {:induction false} AddedIds(orders: map<Id, Order>, lines: seq<Checkouts.OrderLine>, c: Id, buyer: Id,
                                    first: Id)
    requires forall o | o in orders :: o < first
    ensures forall o | o in orders ::
              o in Checkouts.AddOrders(orders, lines, c, buyer, first)
              && Checkouts.AddOrders(orders, lines, c, buyer, first)[o] == orders[o]
    ensures forall o | o in Checkouts.AddOrders(orders, lines, c, buyer, first) && o !in orders ::
              && first <= o < first + |lines|
              && Checkouts.AddOrders(orders, lines, c, buyer, first)[o]
                 == Checkouts.NewOrder(lines[o - first], c, buyer)
  {
    if lines != [] {
      var n := |lines| - 1;
      AddedIds(orders, lines[..n], c, buyer, first);
    }
  }

  // How the last line is reserved once the ones before it are.
  lemma LastReserved(listings: map<Id, Listing>, verified: set<Id>, lines: seq<Checkouts.Line>)
    requires lines != [] && Checkouts.ReserveAll(listings, verified, lines).Some?
    ensures var n := |lines| - 1;
            var before := Checkouts.ReserveAll(listings, verified, lines[..n]);
            var r := Checkouts.ReserveAll(listings, verified, lines).value;
            && before.Some? && r.lines[..n] == before.value.lines
            && r.lines[n].listing == lines[n].listing && r.lines[n].quantity == lines[n].quantity
            && TryReserve(before.value.listings, verified, lines[n].listing, lines[n].quantity) == Some(r.listings)
  {
    hide TryReserve;
  }

  /** Reserving every line and then adding an unpaid order for each keeps stock conserved. */
  lemma {:induction false} PlaceKeepsStock(listings: map<Id, Listing>, verified: set<Id>, orders: map<Id, Order>,
                                           lines: seq<Checkouts.Line>, c: Id, buyer: Id, first: Id)
    requires StockOk(listings, orders) && (forall o | o in orders :: o < first)
    requires forall i | 0 <= i < |lines| :: lines[i].quantity > 0
    requires Checkouts.ReserveAll(listings, verified, lines).Some?
    ensures var r := Checkouts.ReserveAll(listings, verified, lines).value;
            StockOk(r.listings, Checkouts.AddOrders(orders, r.lines, c, buyer, first))
  {
    hide StockOk, TryReserve;
    if lines != [] {
      var n := |lines| - 1;
      LastReserved(listings, verified, lines);
      var before := Checkouts.ReserveAll(listings, verified, lines[..n]).value;
      var r := Checkouts.ReserveAll(listings, verified, lines).value;
      PlaceKeepsStock(listings, verified, orders, lines[..n], c, buyer, first);
      AddedIds(orders, before.lines, c, buyer, first);
      var added := Checkouts.AddOrders(orders, before.lines, c, buyer, first);
      var o: Id := first + n;
      AddKeepsStock(before.listings, verified, added, o, Checkouts.NewOrder(r.lines[n], c, buyer));
    }
  }

  // ----- Releasing -----

  lemma {:induction false} SumSplit(orders: map<Id, Order>, whole: Order -> int, part: Order -> int,
                                    rest: Order -> int)
    requires forall o | o in orders :: whole(orders[o]) == part(orders[o]) + rest(orders[o])
    ensures Sum(orders, whole) == Sum(orders, part) + Sum(orders, rest)
    decreases orders.Keys
  {
    if orders != map[] {
      var o :| o in orders;
      SumTake(orders, whole, o);
      SumTake(orders, part, o);
      SumTake(orders, rest, o);
      assert (orders - {o}).Keys < orders.Keys;
      SumSplit(orders - {o}, whole, part, rest);
    }
  }

  // What stays held by orders other than the checkout's unpaid ones.
  ghost function StillHeldOn(l: Id, c: Id): Order -> int {
    (order: Order) =>
      if order.listing == l && Uncommitted(order.status) && !Checkouts.Unpaid(order, c) then order.quantity else 0
  }

  // What unpaid orders held is what stays held plus what the release gives back.
  lemma ReleaseSplitsHeld(orders: map<Id, Order>, c: Id, l: Id)
    ensures var after := Checkouts.WithOrders(orders, c, OrderStatus.Cancelled);
            Sum(orders, HeldOn(l)) == Sum(orders, Checkouts.ReleasedOn(l, c)) + Sum(after, HeldOn(l)) &&
            Sum(orders, CommittedOn(l)) == Sum(after, CommittedOn(l))
    ensures Sum(orders, Checkouts.ReleasedOn(l, c)) >= 0
  {
    SumSplit(orders, HeldOn(l), Checkouts.ReleasedOn(l, c), StillHeldOn(l, c));
    SumNonNegative(orders, Checkouts.ReleasedOn(l, c));
    CancelledSums(orders, c, l);
  }

  lemma CancelledSums(orders: map<Id, Order>, c: Id, l: Id)
    ensures var after := Checkouts.WithOrders(orders, c, OrderStatus.Cancelled);
            Sum(orders, StillHeldOn(l, c)) == Sum(after, HeldOn(l)) && Sum(orders, CommittedOn(l)) == Sum(after, CommittedOn(l))
  {
    var after := Checkouts.WithOrders(orders, c, OrderStatus.Cancelled);
    SumSame(orders, StillHeldOn(l, c), after, HeldOn(l));
    SumSame(orders, CommittedOn(l), after, CommittedOn(l));
  }

  lemma NothingReleased(orders: map<Id, Order>, c: Id, l: Id)
    requires !Checkouts.HoldsUnpaid(orders, l, c)
    ensures Sum(orders, Checkouts.ReleasedOn(l, c)) == 0
  {
    SumZero(orders, Checkouts.ReleasedOn(l, c));
  }

  lemma ReleaseKeepsListing(listings: map<Id, Listing>, orders: map<Id, Order>, c: Id, l: Id)
    requires l in listings && listings[l].price > 0
    requires ListingOk(listings[l], Sum(orders, HeldOn(l)), Sum(orders, CommittedOn(l)))
    ensures var after := Checkouts.WithOrders(orders, c, OrderStatus.Cancelled);
            var row := Checkouts.Returned(listings, orders, c)[l];
            row.price > 0 && ListingOk(row, Sum(after, HeldOn(l)), Sum(after, CommittedOn(l)))
  {
    var after := Checkouts.WithOrders(orders, c, OrderStatus.Cancelled);
    var row := Checkouts.Returned(listings, orders, c)[l];
    var held, committed := Sum(orders, HeldOn(l)), Sum(orders, CommittedOn(l));
    ReleaseSplitsHeld(orders, c, l);
    HeldNonNegative(after, l);
    var back := Sum(orders, Checkouts.ReleasedOn(l, c));
    if Checkouts.HoldsUnpaid(orders, l, c) {
      AdjustedOk(listings[l], row, back, 0, held, committed, Sum(after, HeldOn(l)), Sum(after, CommittedOn(l)));
    } else {
      NothingReleased(orders, c, l);
    }
  }

  lemma ReleaseKeepsStock(listings: map<Id, Listing>, orders: map<Id, Order>, c: Id)
    requires StockOk(listings, orders)
    ensures StockOk(Checkouts.Returned(listings, orders, c), Checkouts.WithOrders(orders, c, OrderStatus.Cancelled))
  {
    forall l | l in listings {
      ReleaseKeepsListing(listings, orders, c, l);
    }
  }

  // ----- The farmer's and the admin's edits -----

  lemma EditKeepsStock(listings: map<Id, Listing>, orders: map<Id, Order>, l: Id, row: Listing)
    requires StockOk(listings, orders) && l in listings
    requires row.price > 0 && row.floating >= 0
    requires row.actual - row.floating == listings[l].actual - listings[l].floating
    requires row.supplied - row.actual == listings[l].supplied - listings[l].actual
    requires row.status == DeriveStatus(row.status, row.actual, row.floating)
    ensures StockOk(listings[l := row], orders)
  {
    HeldNonNegative(orders, l);
  }

  lemma CreateKeepsStock(listings: map<Id, Listing>, orders: map<Id, Order>, l: Id, row: Listing)
    requires StockOk(listings, orders) && l !in listings
    requires row.price > 0 && row.actual == row.floating == row.supplied && row.actual >= 0
    requires row.status == DeriveStatus(row.status, row.actual, row.floating)
    ensures StockOk(listings[l := row], orders)
  {
    SumZero(orders, HeldOn(l));
    SumZero(orders, CommittedOn(l));
  }

  lemma DropKeepsStock(listings: map<Id, Listing>, orders: map<Id, Order>, l: Id)
    requires StockOk(listings, orders)
    requires !exists o | o in orders :: orders[o].listing == l
    ensures StockOk(listings - {l}, orders)
  {
  }
}
