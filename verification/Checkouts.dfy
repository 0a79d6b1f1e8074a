/**
 * Placing orders, all or nothing, and paying for, cancelling or expiring the checkout they were
 * placed in.
 */
module Checkouts {
  import opened Rows
  import opened Sums
  import opened Money
  import opened Stock
  import opened Sourcing
  import opened Ids

  datatype Line = Line(listing: Id, quantity: nat)

  // No listing twice; a request's lines are validated so, and a cart's are keyed so.
  predicate Distinct(lines: seq<Line>) {
    forall i, j | 0 <= i < j < |lines| :: lines[i].listing != lines[j].listing
  }

  /** A line priced and attributed from the listing's row right after its reservation. */
  datatype OrderLine = OrderLine(listing: Id, farm: Id, farmer: Id, quantity: nat, total: nat)

  datatype Reserved = Reserved(listings: map<Id, Listing>, lines: seq<OrderLine>)

  function LineOf(listings: map<Id, Listing>, line: Line): OrderLine
    requires line.listing in listings
  {
    var row := listings[line.listing];
    MulNatural(row.price, line.quantity);
    OrderLine(line.listing, row.farm, row.farmer, line.quantity, row.price * line.quantity)
  }

  // Reserves the lines in order; one that cannot be reserved refuses them all.
  function ReserveAll(listings: map<Id, Listing>, verified: set<Id>, lines: seq<Line>): (r: Option<Reserved>)
    ensures r.Some? ==> |r.value.lines| == |lines|
  {
    if lines == [] then Some(Reserved(listings, []))
    else
      var last := lines[|lines| - 1];
      match ReserveAll(listings, verified, lines[..|lines| - 1])
      case None => None
      case Some(before) =>
        match TryReserve(before.listings, verified, last.listing, last.quantity)
        case None => None
        case Some(after) => Some(Reserved(after, before.lines + [LineOf(after, last)]))
  }

  function Subtotal(lines: seq<OrderLine>): nat {
    if lines == [] then 0 else Subtotal(lines[..|lines| - 1]) + lines[|lines| - 1].total
  }

  function GrandTotal(config: Config, subtotal: nat): nat {
    subtotal + config.deliveryFee + PercentOf(subtotal, config.serviceFeeBps)
  }

  function NewOrder(line: OrderLine, checkout: Id, buyer: Id): Order {
    Order(line.listing, line.farm, line.farmer, buyer, Some(checkout), line.quantity, line.total,
          OrderStatus.AwaitingPayment, None, None, None)
  }

  // One order per line, with ids counted up from `first`.
  function AddOrders(orders: map<Id, Order>, lines: seq<OrderLine>, checkout: Id, buyer: Id, first: Id)
    : map<Id, Order>
  {
    if lines == [] then orders
    else
      var n := |lines| - 1;
      AddOrders(orders, lines[..n], checkout, buyer, first)[first + n := NewOrder(lines[n], checkout, buyer)]
  }

  predicate HasKey(checkouts: map<Id, Checkout>, buyer: Id, key: Id) {
    exists c | c in checkouts :: checkouts[c].buyer == buyer && checkouts[c].key == key
  }

  /** Who is placing the orders, and what the buyer was shown and chose. */
  datatype Draft = Draft(buyer: Id, key: Id, expectedTotal: nat, deliverable: bool)

  // Prices lines reserved in this transaction and places their orders, awaiting payment.
  function CreateCheckout(s: State, config: Config, draft: Draft, lines: seq<OrderLine>, request: Option<Id>, now: int)
    : Result<State>
  {
    var subtotal := Subtotal(lines);
    var total := GrandTotal(config, subtotal);
    if total != draft.expectedTotal then Refused(CartPriceChanged)
    else
      var row := Checkout(draft.buyer, draft.key, CheckoutStatus.AwaitingPayment, subtotal, config.deliveryFee,
                          PercentOf(subtotal, config.serviceFeeBps), total, now + config.holdMs, request);
      Ok(s.(checkouts := s.checkouts[s.next := row],
            orders := AddOrders(s.orders, lines, s.next, draft.buyer, s.next + 1),
            next := s.next + 1 + |lines|))
  }

  function Place(s: State, config: Config, draft: Draft, lines: seq<Line>, request: Option<Id>, now: int, lost: Error)
    : Result<State>
  {
    match ReserveAll(s.listings, s.verified, lines)
    case None => Refused(lost)
    case Some(reserved) => CreateCheckout(s.(listings := reserved.listings), config, draft, reserved.lines, request, now)
  }

  // Places a single line through the same checkout, without reading or emptying any cart.
  function BuyNow(s: State, config: Config, draft: Draft, line: Line, now: int): Result<State> {
    if HasKey(s.checkouts, draft.buyer, draft.key) then Ok(s)
    else if !draft.deliverable then Refused(InvalidDelivery)
    else Place(s, config, draft, [line], None, now, OrderRefusal(s.listings, s.verified, line.listing))
  }

  // ----- Cart checkout -----

  function CartOf(s: State, buyer: Id): map<Id, nat> {
    if buyer in s.carts then s.carts[buyer] else map[]
  }

  // The lines in listing order, the order every reservation loop takes its row locks in.
  function SortedLines(cart: map<Id, nat>): (lines: seq<Line>)
    ensures |lines| == |cart|
    decreases cart.Keys
  {
    if cart == map[] then []
    else
      var m := Max(cart.Keys);
      assert (cart - {m}).Keys < cart.Keys;
      assert |cart - {m}| == |cart| - 1 by { assert (cart - {m}).Keys == cart.Keys - {m}; }
      SortedLines(cart - {m}) + [Line(m, cart[m])]
  }

  predicate AllOrderable(s: State, cart: map<Id, nat>) {
    forall l | l in cart :: IsOrderable(s.listings, s.verified, l, cart[l])
  }

  function PlaceOrders(s: State, config: Config, draft: Draft, now: int): Result<State> {
    var cart := CartOf(s, draft.buyer);
    if HasKey(s.checkouts, draft.buyer, draft.key) then Ok(s)
    else if cart == map[] then Refused(CartEmpty)
    else if !AllOrderable(s, cart) then Refused(CartNeedsAttention)
    else if !draft.deliverable then Refused(InvalidDelivery)
    else
      match Place(s, config, draft, SortedLines(cart), None, now, CartNeedsAttention)
      case Refused(error) => Refused(error)
      case Ok(placed) => Ok(placed.(carts := placed.carts - {draft.buyer}))
  }

  // ----- Selecting listings for a sourcing request -----

  // The lines checked one after another; the first that fails says why.
  function Checked(s: State, lines: seq<Line>, matching: set<Id>): Result<map<Id, nat>> {
    if lines == [] then Ok(map[])
    else
      var last := lines[|lines| - 1];
      match Checked(s, lines[..|lines| - 1], matching)
      case Refused(error) => Refused(error)
      case Ok(seen) =>
        if last.listing in seen then Refused(AlreadySelected)
        else if last.listing !in s.listings then Refused(ProduceNotFound)
        else if !ListingEligible(s, last.listing, last.quantity, matching) then Refused(ListingNotEligible)
        else Ok(seen[last.listing := last.quantity])
  }

  // The lines replace whatever was selected before.
  function SaveAllocations(s: State, r: Id, lines: seq<Line>, matching: set<Id>): Result<State> {
    if r !in s.requests then Refused(RequestNotFound)
    else if s.requests[r].agent.None? then Refused(AgentMissing)
    else if !OpenForMatch(s.requests[r].status) then Refused(MatchingClosed)
    else
      match Checked(s, lines, matching)
      case Refused(error) => Refused(error)
      case Ok(items) => Ok(Sync(s.(requests := s.requests[r := s.requests[r].(allocations := items)]), Some(r)))
  }

  // ----- Confirming a sourcing request's selection -----

  ghost function Selected(allocations: map<Id, nat>): int {
    Sum(allocations, (quantity: nat) => quantity)
  }

  predicate Live(status: CheckoutStatus) {
    status.AwaitingPayment? || status.Paid?
  }

  predicate HasLive(checkouts: map<Id, Checkout>, request: Id) {
    exists c | c in checkouts :: checkouts[c].request == Some(request) && Live(checkouts[c].status)
  }

  predicate KeyOfOther(checkouts: map<Id, Checkout>, buyer: Id, key: Id, request: Id) {
    exists c | c in checkouts ::
      checkouts[c].buyer == buyer && checkouts[c].key == key && checkouts[c].request != Some(request)
  }

  ghost function ConfirmRequest(s: State, config: Config, r: Id, draft: Draft, matching: set<Id>, now: int): Result<State> {
    if r !in s.requests then Refused(RequestNotFound)
    else
      var row := s.requests[r];
      if KeyOfOther(s.checkouts, row.buyer, draft.key, r) then Refused(KeyTaken)
      else if HasKey(s.checkouts, row.buyer, draft.key) then Ok(s)
      else if HasLive(s.checkouts, r) then Refused(RequestHasCheckout)
      else if row.allocations == map[] then Refused(SelectionEmpty)
      else if Selected(row.allocations) < row.requested then Refused(SelectionTooSmall)
      else if exists l | l in row.allocations :: !ListingEligible(s, l, row.allocations[l], matching) then
        Refused(ListingNotEligible)
      else if !draft.deliverable then Refused(InvalidDelivery)
      else
        match Place(s, config, draft.(buyer := row.buyer), SortedLines(row.allocations), Some(r), now,
                    ListingNotEligible)
        case Refused(error) => Refused(error)
        case Ok(placed) => Ok(Sync(placed, Some(r)))
  }

  // ----- Ending an unpaid checkout -----

  predicate Unpaid(order: Order, c: Id) {
    order.checkout == Some(c) && order.status.AwaitingPayment?
  }

  ghost function ReleasedOn(listing: Id, c: Id): Order -> int {
    (order: Order) => if order.listing == listing && Unpaid(order, c) then order.quantity else 0
  }

  predicate HoldsUnpaid(orders: map<Id, Order>, l: Id, c: Id) {
    exists o | o in orders :: orders[o].listing == l && Unpaid(orders[o], c)
  }

  // Every listing gets back all that the checkout's unpaid orders held on it.
  ghost function Returned(listings: map<Id, Listing>, orders: map<Id, Order>, c: Id): map<Id, Listing> {
    map l | l in listings ::
      if HoldsUnpaid(orders, l, c) then
        Restatused(listings[l].(floating := listings[l].floating + Sum(orders, ReleasedOn(l, c))))
      else listings[l]
  }

  function WithOrders(orders: map<Id, Order>, c: Id, status: OrderStatus): map<Id, Order> {
    map o | o in orders :: if Unpaid(orders[o], c) then orders[o].(status := status) else orders[o]
  }

  function WithoutPending(payments: map<Id, Payment>, c: Id): map<Id, Payment> {
    map p | p in payments ::
      if payments[p].checkout == c && payments[p].status.Pending? then payments[p].(status := Abandoned) else payments[p]
  }

  ghost function Release(s: State, c: Id, status: CheckoutStatus): State
    requires c in s.checkouts
  {
    s.(listings := Returned(s.listings, s.orders, c),
       orders := WithOrders(s.orders, c, OrderStatus.Cancelled),
       payments := WithoutPending(s.payments, c),
       checkouts := s.checkouts[c := s.checkouts[c].(status := status)])
  }

  ghost function CancelCheckout(s: State, c: Id, buyer: Id): Result<State> {
    if c !in s.checkouts || s.checkouts[c].buyer != buyer then Refused(CheckoutNotFound)
    else if !s.checkouts[c].status.AwaitingPayment? then Refused(CheckoutNotCancellable)
    else Ok(Sync(Release(s, c, CheckoutStatus.Cancelled), s.checkouts[c].request))
  }

  ghost function Expire(s: State, c: Id, now: int): Result<State> {
    if c !in s.checkouts || !s.checkouts[c].status.AwaitingPayment? || s.checkouts[c].expiresAt >= now then Refused(NotDue)
    else Ok(Sync(Release(s, c, Expired), s.checkouts[c].request))
  }

  // Closing a request releases the checkout it is waiting on, if there is one.
  ghost function CloseRequest(s: State, r: Id): Result<State> {
    if r !in s.requests then Refused(RequestNotFound)
    else if s.requests[r].status.Completed? || s.requests[r].status.Closed? then Refused(RequestFinished)
    else if s.requests[r].status.Confirmed? || s.requests[r].status.Fulfilment? then Refused(RequestHasOpenOrders)
    else
      var closed := s.(requests := s.requests[r := s.requests[r].(closed := true)]);
      if exists c | c in s.checkouts :: AwaitingFor(s.checkouts[c], r) then
        var c :| c in s.checkouts && AwaitingFor(s.checkouts[c], r);
        Ok(Sync(Release(closed, c, CheckoutStatus.Cancelled), Some(r)))
      else Ok(Sync(closed, Some(r)))
  }

  predicate AwaitingFor(row: Checkout, request: Id) {
    row.request == Some(request) && row.status.AwaitingPayment?
  }
}
