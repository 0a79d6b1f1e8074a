/**
 * The rows of the marketplace's ledger and the state made of them. Amounts are minor units
 * (kobo, or cents for a dollar charge); times are milliseconds.
 */
module Rows {

  type Id = nat

  datatype Option<+T> = None | Some(value: T)

  /** A transaction either commits a new state or is refused and rolled back. */
  datatype Result<+T> = Ok(value: T) | Refused(error: Error)

  datatype Error =
    | BadRequest | NotFound | ProduceNotFound | ProduceUnavailable | InsufficientStock | StockReserved | StockChanged
    | ProduceHasOrders | ProduceNotDisabled | ProduceHasOpenOrders | CartEmpty | CartFull | CartNeedsAttention
    | InvalidDelivery | CartPriceChanged | CheckoutNotFound | CheckoutNotCancellable | CheckoutNotPayable | FxRateStale
    | PaymentNotFound | PaymentNotRefundable | OrdersPaidOut | OrderNotRefundable | OrderAlreadyRefunded
    | NothingToRefund | RefundExceedsBalance | OrderNotFound | OrderInCheckout | OrderNotPending
    | OrderNotConfirmed | OrderNotPreparing | OrderNotCancellable | OrderPaid | OrderChanged
    | ChecklistIncomplete | HandoverNotFound | HandoverNotPending | HandoverNotVerified | OrderNotReady
    | RequestNotFound | RequestHasCheckout | SelectionEmpty | SelectionTooSmall | AlreadySelected | ListingNotEligible
    | MatchingClosed | AgentMissing | RequestFinished | RequestHasOpenOrders | KeyTaken | NotDue | AlreadyOpen | NotHeld

  datatype ProduceStatus = Draft | Published | SoldOut | Disabled

  datatype OrderStatus =
    AwaitingPayment | Pending | Confirmed | Preparing | Ready | Shipped | Fulfilled | Cancelled

  datatype CheckoutStatus = AwaitingPayment | Paid | Expired | Cancelled

  datatype PaymentStatus = Pending | Succeeded | Failed | Abandoned | Orphaned

  datatype RefundStatus = Pending | Processed | Failed

  datatype PayoutStatus = Pending | Succeeded | Failed | Reversed

  datatype HandoverStatus = Pending | Verified | HandedOver

  datatype RequestStatus =
    New | InReview | FindingSupply | AwaitingBuyer | Confirmed | Fulfilment | Completed | Closed

  datatype Currency = Ngn | Usd

  /**
   * A farmer's listing. `supplied` is a history variable: the quantity first listed plus every
   * change the farmer has made to it since.
   */
  datatype Listing = Listing(farm: Id, farmer: Id, price: nat, actual: int, floating: int, status: ProduceStatus,
                             supplied: int)

  datatype Checklist = Checklist(harvested: bool, sorted: bool, packaged: bool, readyForPickup: bool)
  {
    predicate Complete() {
      harvested && sorted && packaged && readyForPickup
    }
  }

  datatype Handover = Handover(status: HandoverStatus, agent: Option<Id>)

  datatype Order = Order(listing: Id, farm: Id, farmer: Id, buyer: Id, checkout: Option<Id>, quantity: nat,
                         total: nat, status: OrderStatus, fulfilledAt: Option<int>, checklist: Option<Checklist>,
                         handover: Option<Handover>)

  datatype Checkout = Checkout(buyer: Id, key: Id, status: CheckoutStatus, subtotal: nat, deliveryFee: nat,
                               serviceFee: nat, total: nat, expiresAt: int, request: Option<Id>)

  datatype Payment = Payment(checkout: Id, key: Id, amount: nat, currency: Currency, charged: nat,
                             status: PaymentStatus)

  /** `automatic` marks the refund that orphaning a payment makes. */
  datatype Refund = Refund(payment: Id, order: Option<Id>, amount: nat, status: RefundStatus, automatic: bool)
  {
    predicate Live() {
      !status.Failed?
    }
  }

  datatype Payout = Payout(farmer: Id, amount: nat, status: PayoutStatus)

  datatype Item = Item(payout: Id, order: Id, amount: nat, status: PayoutStatus)
  {
    predicate Live() {
      status.Pending? || status.Succeeded?
    }
  }

  datatype Request = Request(buyer: Id, requested: int, status: RequestStatus, closed: bool, agent: Option<Id>,
                             allocations: map<Id, nat>)

  /** A row as some caller read it before its transaction began; the row may have moved on since. */
  datatype Read<+R> = Read(id: Id, row: R)

  datatype Config = Config(deliveryFee: nat, serviceFeeBps: nat, holdMs: nat, payoutHoldMs: nat)

  datatype State = State(
    listings: map<Id, Listing>,
    verified: set<Id>,
    clusters: map<Id, Id>,
    carts: map<Id, map<Id, nat>>,
    orders: map<Id, Order>,
    checkouts: map<Id, Checkout>,
    payments: map<Id, Payment>,
    refunds: map<Id, Refund>,
    payouts: map<Id, Payout>,
    items: map<(Id, Id), Item>,
    accounts: map<Id, int>,
    requests: map<Id, Request>,
    orderReads: map<Id, Read<Order>>,
    listingReads: map<Id, Read<Listing>>,
    next: Id)
}
