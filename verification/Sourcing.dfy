/**
 * The status a sourcing request stores is a function of its other rows. Every transaction that
 * changes one of those rows rewrites the status before it commits.
 */
module Sourcing {
  import opened Rows

  /** `paid` holds the order statuses of the request's paid checkout, if it has one. */
  datatype Snapshot = Snapshot(closed: bool, agent: Option<Id>, allocations: nat, awaiting: bool,
                               paid: Option<set<OrderStatus>>)

  predicate AllCancelled(paid: Option<set<OrderStatus>>) {
    paid.Some? && paid.value != {} && paid.value <= {OrderStatus.Cancelled}
  }

  predicate AllDone(paid: set<OrderStatus>) {
    paid <= {Fulfilled, OrderStatus.Cancelled}
  }

  predicate AnyMoving(paid: set<OrderStatus>) {
    Ready in paid || Shipped in paid || Fulfilled in paid
  }

  function DeriveRequestStatus(view: Snapshot): RequestStatus {
    if view.closed || AllCancelled(view.paid) then Closed
    else if view.paid.Some? && Fulfilled in view.paid.value && AllDone(view.paid.value) then Completed
    else if view.paid.Some? && AnyMoving(view.paid.value) then Fulfilment
    else if view.paid.Some? then RequestStatus.Confirmed
    else if view.awaiting then AwaitingBuyer
    else if view.allocations > 0 then FindingSupply
    else if view.agent.Some? then InReview
    else New
  }

  predicate Has(checkouts: map<Id, Checkout>, request: Id, status: CheckoutStatus) {
    exists c | c in checkouts :: checkouts[c].request == Some(request) && checkouts[c].status == status
  }

  predicate OrderOfPaid(checkouts: map<Id, Checkout>, order: Order, request: Id) {
    && order.checkout.Some? && order.checkout.value in checkouts
    && checkouts[order.checkout.value].request == Some(request)
    && checkouts[order.checkout.value].status.Paid?
  }

  function PaidOrders(checkouts: map<Id, Checkout>, orders: map<Id, Order>, request: Id): set<OrderStatus> {
    set o | o in orders && OrderOfPaid(checkouts, orders[o], request) :: orders[o].status
  }

  function ViewOf(row: Request, request: Id, checkouts: map<Id, Checkout>, orders: map<Id, Order>): Snapshot {
    Snapshot(row.closed, row.agent, |row.allocations|, Has(checkouts, request, CheckoutStatus.AwaitingPayment),
             if Has(checkouts, request, CheckoutStatus.Paid) then Some(PaidOrders(checkouts, orders, request)) else None)
  }

  // The row with its status derived, and closed for good once nothing paid for is left.
  function Resynced(row: Request, view: Snapshot): Request {
    row.(status := DeriveRequestStatus(view), closed := row.closed || AllCancelled(view.paid))
  }

  function Sync(s: State, request: Option<Id>): State {
    if request.None? || request.value !in s.requests then s
    else
      var r := request.value;
      s.(requests := s.requests[r := Resynced(s.requests[r], ViewOf(s.requests[r], r, s.checkouts, s.orders))])
  }

  function RequestOf(s: State, order: Order): Option<Id> {
    if order.checkout.Some? && order.checkout.value in s.checkouts then s.checkouts[order.checkout.value].request
    else None
  }

  // ----- The admin's steps on a request -----

  predicate OpenForMatch(status: RequestStatus) {
    status.New? || status.InReview? || status.FindingSupply?
  }

  function OpenRequest(s: State, buyer: Id, requested: int): State {
    s.(requests := s.requests[s.next := Request(buyer, requested, New, false, None, map[])], next := s.next + 1)
  }

  // `suits`: whether this agent may take on the request with the selection it has.
  function AssignAgent(s: State, r: Id, agent: Id, suits: bool): Result<State> {
    if r !in s.requests then Refused(RequestNotFound)
    else if !OpenForMatch(s.requests[r].status) then Refused(MatchingClosed)
    else if !suits then Refused(AgentMissing)
    else Ok(Sync(s.(requests := s.requests[r := s.requests[r].(agent := Some(agent))]), Some(r)))
  }

  // `matching`: the listings whose name, unit and cluster fit the request.
  predicate ListingEligible(s: State, l: Id, quantity: int, matching: set<Id>) {
    && l in s.listings && l in matching
    && s.listings[l].status.Published? && s.listings[l].farm in s.verified
    && s.listings[l].floating >= 1 && quantity <= s.listings[l].floating
  }
}
