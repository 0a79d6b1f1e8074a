/**
 * The two counters of a listing: `floating` is what is open to buyers, `actual` what the farmer still has.
 * They part when an order is placed, meet again when it is confirmed, and cancellation undoes either.
 */
module Stock {
  import opened Rows
  import opened Sums

  // Stock moves a listing between two statuses; in any other it has no say.
  function DeriveStatus(status: ProduceStatus, actual: int, floating: int): ProduceStatus {
    if !status.Published? && !status.SoldOut? then status
    else if actual <= 0 || floating <= 0 then SoldOut
    else Published
  }

  function Restatused(row: Listing): Listing {
    row.(status := DeriveStatus(row.status, row.actual, row.floating))
  }

  predicate IsOrderable(listings: map<Id, Listing>, verified: set<Id>, listing: Id, quantity: int) {
    && listing in listings
    && listings[listing].status.Published?
    && listings[listing].farm in verified
    && listings[listing].floating >= quantity
  }

  function OrderRefusal(listings: map<Id, Listing>, verified: set<Id>, listing: Id): Error {
    if listing !in listings || listings[listing].status.Draft? || listings[listing].farm !in verified then
      ProduceNotFound
    else if !listings[listing].status.Published? then ProduceUnavailable
    else InsufficientStock
  }

  // Test and decrement in one, so two buyers cannot both pass the test.
  function TryReserve(listings: map<Id, Listing>, verified: set<Id>, listing: Id, quantity: nat)
    : Option<map<Id, Listing>>
  {
    if !IsOrderable(listings, verified, listing, quantity) then None
    else
      var row := listings[listing];
      Some(listings[listing := Restatused(row.(floating := row.floating - quantity))])
  }

  predicate Uncommitted(status: OrderStatus) {
    status.AwaitingPayment? || status.Pending?
  }

  // Undoes an order's hold on the counters that its status, as given, says it holds.
  function ReleaseStock(listings: map<Id, Listing>, order: Order): map<Id, Listing> {
    if order.listing !in listings then listings
    else
      var row := listings[order.listing];
      var back := if Uncommitted(order.status) then 0 else order.quantity;
      listings[order.listing := Restatused(row.(floating := row.floating + order.quantity,
                                                actual := row.actual + back))]
  }

  // ----- What the orders on a listing hold -----

  ghost function HeldOn(listing: Id): Order -> int {
    (order: Order) => if order.listing == listing && Uncommitted(order.status) then order.quantity else 0
  }

  ghost function CommittedOn(listing: Id): Order -> int {
    (order: Order) =>
      if order.listing == listing && !Uncommitted(order.status) && !order.status.Cancelled? then order.quantity else 0
  }

  /**
   * The two counters differ by what unconfirmed orders hold, `actual` plus what confirmed orders
   * took is all the farmer ever supplied, and the shop status says whether anything is left.
   */
  ghost predicate ListingOk(row: Listing, held: int, committed: int) {
    && row.actual - row.floating == held
    && row.actual + committed == row.supplied
    && row.floating >= 0
    && (row.status.Published? ==> row.floating > 0)
    && (row.status.SoldOut? ==> row.floating == 0)
  }

  ghost predicate StockOk(listings: map<Id, Listing>, orders: map<Id, Order>) {
    && (forall o | o in orders :: orders[o].listing in listings && orders[o].quantity > 0)
    && (forall l | l in listings :: listings[l].price > 0 &&
          ListingOk(listings[l], Sum(orders, HeldOn(l)), Sum(orders, CommittedOn(l))))
  }

  // ----- The farmer's own edits -----

  function CreateListing(s: State, farm: Id, farmer: Id, price: nat, quantity: nat, status: ProduceStatus): State {
    var row := Restatused(Listing(farm, farmer, price, quantity, quantity, status, quantity));
    s.(listings := s.listings[s.next := row], next := s.next + 1)
  }

  function ReadListing(s: State, session: Id, listing: Id): Result<State> {
    if listing !in s.listings then Refused(NotFound)
    else Ok(s.(listingReads := s.listingReads[session := Read(listing, s.listings[listing])]))
  }

  // The edit a farmer's request makes of the row it read.
  function Edited(row: Listing, actual: Option<nat>, status: Option<ProduceStatus>, price: Option<nat>): Listing {
    var now := if actual.Some? then actual.value else row.actual;
    var delta := now - row.actual;
    var requested := if row.status.Disabled? then Disabled else if status.Some? then status.value else row.status;
    row.(actual := now,
         floating := row.floating + delta,
         supplied := row.supplied + delta,
         price := if price.Some? then price.value else row.price,
         status := DeriveStatus(requested, now, row.floating + delta))
  }

  /**
   * An edit computed from a row read earlier and written only if both counters still have the
   * values read. Nothing but the counters is checked again.
   */
  function UpdateListing(s: State, session: Id, actual: Option<nat>, status: Option<ProduceStatus>, price: Option<nat>)
    : Result<State>
  {
    if session !in s.listingReads then Refused(NotFound)
    else
      var Read(l, seen) := s.listingReads[session];
      var row := Edited(seen, actual, status, price);
      if row.floating < 0 then Refused(StockReserved)
      else if l !in s.listings || s.listings[l].actual != seen.actual || s.listings[l].floating != seen.floating then
        Refused(StockChanged)
      else
        var current := s.listings[l];
        Ok(s.(listings := s.listings[l := current.(actual := row.actual, floating := row.floating,
                                                   supplied := current.supplied + row.actual - seen.actual,
                                                   price := if price.Some? then row.price else current.price,
                                                   status := row.status)]))
  }

  predicate OpenPaid(status: OrderStatus) {
    status.Pending? || status.Confirmed? || status.Preparing? || status.Ready? || status.Shipped?
  }

  function DisableListing(s: State, l: Id): Result<State> {
    if l !in s.listings then Refused(ProduceNotFound)
    else if exists o | o in s.orders :: s.orders[o].listing == l && OpenPaid(s.orders[o].status) then
      Refused(ProduceHasOpenOrders)
    else Ok(s.(listings := s.listings[l := s.listings[l].(status := Disabled)]))
  }

  // `byAdmin`: the admin's removal insists on DISABLED, the farmer's own does not.
  function RemoveListing(s: State, l: Id, byAdmin: bool): Result<State> {
    if l !in s.listings then Refused(ProduceNotFound)
    else if byAdmin && !s.listings[l].status.Disabled? then Refused(ProduceNotDisabled)
    else if (exists o | o in s.orders :: s.orders[o].listing == l) ||
            (exists r | r in s.requests :: l in s.requests[r].allocations) then
      Refused(ProduceHasOrders)
    else Ok(s.(listings := s.listings - {l}))
  }
}
