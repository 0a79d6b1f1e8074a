/** Every transaction of the ledger as an event, and runs of events in any order. */
module Runs {
  import opened Rows
  import Stock
  import Sourcing
  import Orders
  import Checkouts
  import Payments
  import Refunds
  import Payouts
  import opened Invariants
  import opened Evolution
  import ListingProofs
  import OrderProofs
  import CheckoutProofs
  import RequestProofs
  import PaymentProofs
  import RefundProofs
  import PayoutProofs

  /** Listings, carts, checkouts and sourcing requests. */
  datatype ShopEvent =
    | CreateListing(farm: Id, farmer: Id, price: nat, quantity: nat, status: ProduceStatus)
    | ReadListing(session: Id, listing: Id)
    | UpdateListing(session: Id, actual: Option<nat>, newStatus: Option<ProduceStatus>, newPrice: Option<nat>)
    | DisableListing(listing: Id)
    | RemoveListing(listing: Id, byAdmin: bool)
    | SetCart(buyer: Id, cart: map<Id, nat>)
    | BuyNow(draft: Checkouts.Draft, line: Checkouts.Line, now: int)
    | PlaceOrders(draft: Checkouts.Draft, now: int)
    | CancelCheckout(checkout: Id, buyer: Id)
    | Expire(checkout: Id, now: int)
    | OpenRequest(buyer: Id, requested: int)
    | AssignAgent(request: Id, agent: Id, suits: bool)
    | SaveAllocations(request: Id, lines: seq<Checkouts.Line>, matching: set<Id>)
    | ConfirmRequest(request: Id, draft: Checkouts.Draft, matching: set<Id>, now: int)
    | CloseRequest(request: Id)

  /** A paid order, and the clusters its handover depends on. */
  datatype OrderEvent =
    | ReadOrder(session: Id, order: Id)
    | Confirm(session: Id)
    | Prepare(session: Id)
    | Tick(session: Id, ticks: Orders.Ticks)
    | MarkReady(session: Id, list: Id)
    | Cancel(session: Id, seller: bool)
    | Remove(session: Id, buyer: Id)
    | VerifyHandover(order: Id, agent: Id)
    | CompleteHandover(order: Id, agent: Id)
    | Fulfil(order: Id, now: int)
    | FarmApproved(farm: Id, agent: Id)
    | FarmUnverified(farm: Id, leaves: bool)

  /** Payments, refunds and payouts. */
  datatype MoneyEvent =
    | Initiate(checkout: Id, buyer: Id, key: Id, currency: Currency, rate: Option<nat>, now: int)
    | OpenFailed(payment: Id)
    | Charged(charge: Payments.Charge)
    | Refund(payment: Id, orderId: Option<Id>)
    | RefundSettled(refund: Id, processed: bool)
    | SetAccount(farmer: Id, heldUntil: int)
    | Approve(farmers: seq<Id>, now: int)
    | TransfersRejected(payouts: set<Id>)
    | TransferSettled(payout: Id, outcome: PayoutStatus)

  datatype Event = Shop(shop: ShopEvent) | Order(order: OrderEvent) | Money(money: MoneyEvent)

  // What request validation lets through: quantities and prices are positive.
  predicate WellFormed(e: ShopEvent) {
    match e
    case CreateListing(_, _, price, _, _) => price > 0
    case UpdateListing(_, _, _, newPrice) => newPrice.Some? ==> newPrice.value > 0
    case SetCart(_, cart) => forall l | l in cart :: cart[l] > 0
    case BuyNow(_, line, _) => line.quantity > 0
    case SaveAllocations(_, lines, _) => forall i | 0 <= i < |lines| :: lines[i].quantity > 0
    case _ => true
  }

  ghost function ApplyShop(config: Config, s: State, e: ShopEvent): Result<State> {
    if !WellFormed(e) then Refused(BadRequest)
    else
      match e
      case CreateListing(farm, farmer, price, quantity, status) =>
        Ok(Stock.CreateListing(s, farm, farmer, price, quantity, status))
      case ReadListing(session, l) => Stock.ReadListing(s, session, l)
      case UpdateListing(session, actual, status, price) => Stock.UpdateListing(s, session, actual, status, price)
      case DisableListing(l) => Stock.DisableListing(s, l)
      case RemoveListing(l, byAdmin) => Stock.RemoveListing(s, l, byAdmin)
      case SetCart(buyer, cart) => Ok(s.(carts := s.carts[buyer := cart]))
      case BuyNow(draft, line, now) => Checkouts.BuyNow(s, config, draft, line, now)
      case PlaceOrders(draft, now) => Checkouts.PlaceOrders(s, config, draft, now)
      case CancelCheckout(c, buyer) => Checkouts.CancelCheckout(s, c, buyer)
      case Expire(c, now) => Checkouts.Expire(s, c, now)
      case OpenRequest(buyer, requested) => Ok(Sourcing.OpenRequest(s, buyer, requested))
      case AssignAgent(r, agent, suits) => Sourcing.AssignAgent(s, r, agent, suits)
      case SaveAllocations(r, lines, matching) => Checkouts.SaveAllocations(s, r, lines, matching)
      case ConfirmRequest(r, draft, matching, now) => Checkouts.ConfirmRequest(s, config, r, draft, matching, now)
      case CloseRequest(r) => Checkouts.CloseRequest(s, r)
  }

  function ApplyOrder(s: State, e: OrderEvent): Result<State> {
    match e
    case ReadOrder(session, o) => Orders.ReadOrder(s, session, o)
    case Confirm(session) => Orders.Confirm(s, session)
    case Prepare(session) => Orders.Prepare(s, session)
    case Tick(session, ticks) => Orders.Tick(s, session, ticks)
    case MarkReady(session, list) => Orders.MarkReady(s, session, list)
    case Cancel(session, seller) => Orders.Cancel(s, session, seller)
    case Remove(session, buyer) => Orders.Remove(s, session, buyer)
    case VerifyHandover(o, agent) => Orders.VerifyHandover(s, o, agent)
    case CompleteHandover(o, agent) => Orders.CompleteHandover(s, o, agent)
    case Fulfil(o, now) => Orders.Fulfil(s, o, now)
    case FarmApproved(farm, agent) => Ok(Orders.FarmApproved(s, farm, agent))
    case FarmUnverified(farm, leaves) => Ok(Orders.FarmUnverified(s, farm, leaves))
  }

  ghost function ApplyMoney(config: Config, s: State, e: MoneyEvent): Result<State> {
    match e
    case Initiate(c, buyer, key, currency, rate, now) => Payments.Initiate(s, c, buyer, key, currency, rate, now)
    case OpenFailed(p) => Payments.OpenFailed(s, p)
    case Charged(charge) => Payments.ApplyCharge(s, charge)
    case Refund(p, order) => Refunds.RefundStep(s, p, order)
    case RefundSettled(r, processed) => Refunds.SettleRefund(s, r, processed)
    case SetAccount(farmer, heldUntil) => Ok(s.(accounts := s.accounts[farmer := heldUntil]))
    case Approve(farmers, now) => Ok(Payouts.Approve(s, config, farmers, now))
    case TransfersRejected(ids) => Ok(Payouts.RejectTransfers(s, ids))
    case TransferSettled(p, outcome) => Payouts.SettlePayout(s, p, outcome)
  }

  ghost function Apply(config: Config, s: State, e: Event): Result<State> {
    match e
    case Shop(x) => ApplyShop(config, s, x)
    case Order(x) => ApplyOrder(s, x)
    case Money(x) => ApplyMoney(config, s, x)
  }

  // A refused transaction rolls back and leaves the state as it was.
  ghost function After(config: Config, s: State, e: Event): State {
    match Apply(config, s, e)
    case Ok(t) => t
    case Refused(_) => s
  }

  ghost function Run(config: Config, s: State, events: seq<Event>): State {
    if events == [] then s
    else After(config, Run(config, s, events[..|events| - 1]), events[|events| - 1])
  }

  /** The ledger as checkouts were introduced: listings, farms, and orders nobody paid through it. */
  ghost predicate Legacy(s: State) {
    && s.checkouts == map[] && s.payments == map[] && s.refunds == map[] && s.payouts == map[] && s.items == map[]
    && s.requests == map[] && s.orderReads == map[] && s.listingReads == map[]
    && FreshOk(s) && Stock.StockOk(s.listings, s.orders) && HandoversOk(s.orders, s.clusters) && CartsOk(s.carts)
    && (forall o | o in s.orders :: s.orders[o].checkout.None? && !s.orders[o].status.AwaitingPayment?)
  }

  lemma LegacyOk(s: State)
    requires Legacy(s)
    ensures Inv(s)
  {
  }

  lemma EmptyIsLegacy(s: State)
    requires s.listings == map[] && s.orders == map[] && s.checkouts == map[] && s.payments == map[]
    requires s.refunds == map[] && s.payouts == map[] && s.items == map[] && s.requests == map[]
    requires s.carts == map[] && s.orderReads == map[] && s.listingReads == map[]
    ensures Legacy(s)
  {
  }

  lemma SetCartKeeps(s: State, buyer: Id, cart: map<Id, nat>)
    requires Inv(s) && forall l | l in cart :: cart[l] > 0
    ensures var t := s.(carts := s.carts[buyer := cart]); Inv(t) && Evolves(s, t)
  {
    hide Stock.StockOk, CheckoutsOk, HandoversOk, ReadsOk, PaymentsOk, RefundsOk, PayoutsOk, Excluded, RequestRefs;
    hide SyncedBut, Evolves;
    CheckoutProofs.CartsKeep(s, s.carts[buyer := cart]);
  }

  lemma ShopStepKeeps(config: Config, s: State, e: ShopEvent)
    requires Inv(s) && ApplyShop(config, s, e).Ok?
    ensures Inv(ApplyShop(config, s, e).value) && Evolves(s, ApplyShop(config, s, e).value)
  {
    hide Inv, Evolves;
    hide Stock.CreateListing, Stock.ReadListing, Stock.UpdateListing, Stock.DisableListing, Stock.RemoveListing;
    hide Checkouts.BuyNow, Checkouts.PlaceOrders, Checkouts.CancelCheckout, Checkouts.Expire;
    hide Checkouts.ConfirmRequest, Checkouts.CloseRequest, Sourcing.OpenRequest, Sourcing.AssignAgent;
    hide Checkouts.SaveAllocations;
    match e
    case CreateListing(farm, farmer, price, quantity, status) =>
      ListingProofs.CreateListingKeeps(s, farm, farmer, price, quantity, status);
    case ReadListing(session, l) => ListingProofs.ReadListingKeeps(s, session, l);
    case UpdateListing(session, actual, status, price) =>
      ListingProofs.UpdateListingKeeps(s, session, actual, status, price);
    case DisableListing(l) => ListingProofs.DisableListingKeeps(s, l);
    case RemoveListing(l, byAdmin) => ListingProofs.RemoveListingKeeps(s, l, byAdmin);
    case SetCart(buyer, cart) => SetCartKeeps(s, buyer, cart);
    case BuyNow(draft, line, now) => CheckoutProofs.BuyNowKeeps(s, config, draft, line, now);
    case PlaceOrders(draft, now) => CheckoutProofs.PlaceOrdersKeeps(s, config, draft, now);
    case CancelCheckout(c, buyer) => CheckoutProofs.CancelCheckoutKeeps(s, c, buyer);
    case Expire(c, now) => CheckoutProofs.ExpireKeeps(s, c, now);
    case OpenRequest(buyer, requested) => RequestProofs.OpenRequestKeeps(s, buyer, requested);
    case AssignAgent(r, agent, suits) => RequestProofs.AssignAgentKeeps(s, r, agent, suits);
    case SaveAllocations(r, lines, matching) => RequestProofs.SaveAllocationsKeeps(s, r, lines, matching);
    case ConfirmRequest(r, draft, matching, now) =>
      CheckoutProofs.ConfirmRequestKeeps(s, config, r, draft, matching, now);
    case CloseRequest(r) => RequestProofs.CloseRequestKeeps(s, r);
  }

  lemma OrderStepKeeps(s: State, e: OrderEvent)
    requires Inv(s) && ApplyOrder(s, e).Ok?
    ensures Inv(ApplyOrder(s, e).value) && Evolves(s, ApplyOrder(s, e).value)
  {
    hide Inv, Evolves;
    hide Orders.ReadOrder, Orders.Confirm, Orders.Prepare, Orders.Tick, Orders.MarkReady, Orders.Cancel;
    hide Orders.Remove, Orders.VerifyHandover, Orders.CompleteHandover, Orders.Fulfil, Orders.FarmApproved;
    hide Orders.FarmUnverified;
    match e
    case ReadOrder(session, o) => OrderProofs.ReadOrderKeeps(s, session, o);
    case Confirm(session) => OrderProofs.ConfirmKeeps(s, session);
    case Prepare(session) => OrderProofs.PrepareKeeps(s, session);
    case Tick(session, ticks) => OrderProofs.TickKeeps(s, session, ticks);
    case MarkReady(session, list) => OrderProofs.MarkReadyKeeps(s, session, list);
    case Cancel(session, seller) => OrderProofs.CancelKeeps(s, session, seller);
    case Remove(session, buyer) => OrderProofs.RemoveKeeps(s, session, buyer);
    case VerifyHandover(o, agent) => OrderProofs.VerifyHandoverKeeps(s, o, agent);
    case CompleteHandover(o, agent) => OrderProofs.CompleteHandoverKeeps(s, o, agent);
    case Fulfil(o, now) => OrderProofs.FulfilKeeps(s, o, now);
    case FarmApproved(farm, agent) => OrderProofs.FarmApprovedKeeps(s, farm, agent);
    case FarmUnverified(farm, leaves) => OrderProofs.FarmUnverifiedKeeps(s, farm, leaves);
  }

  lemma MoneyStepKeeps(config: Config, s: State, e: MoneyEvent)
    requires Inv(s) && ApplyMoney(config, s, e).Ok?
    ensures Inv(ApplyMoney(config, s, e).value) && Evolves(s, ApplyMoney(config, s, e).value)
  {
    hide Inv, Evolves;
    hide Payments.Initiate, Payments.OpenFailed, Payments.ApplyCharge, Refunds.RefundStep, Refunds.SettleRefund;
    hide Payouts.Approve, Payouts.RejectTransfers, Payouts.SettlePayout;
    match e
    case Initiate(c, buyer, key, currency, rate, now) =>
      PaymentProofs.InitiateKeeps(s, c, buyer, key, currency, rate, now);
    case OpenFailed(p) => PaymentProofs.OpenFailedKeeps(s, p);
    case Charged(charge) => PaymentProofs.ApplyChargeKeeps(s, charge);
    case Refund(p, order) => RefundProofs.RefundStepKeeps(s, p, order);
    case RefundSettled(r, processed) => RefundProofs.SettleRefundKeeps(s, r, processed);
    case Approve(farmers, now) => PayoutProofs.ApproveKeeps(s, config, farmers, now);
    case TransfersRejected(ids) => PayoutProofs.RejectTransfersKeeps(s, ids);
    case SetAccount(farmer, heldUntil) => ListingProofs.SetAccountKeeps(s, farmer, heldUntil);
    case TransferSettled(p, outcome) => PayoutProofs.SettlePayoutKeeps(s, p, outcome);
  }

  /** Every transaction keeps the whole invariant, and rows only evolve. */
  lemma StepKeeps(config: Config, s: State, e: Event)
    requires Inv(s)
    ensures Inv(After(config, s, e)) && Evolves(s, After(config, s, e))
  {
    hide Inv, Evolves, ApplyShop, ApplyOrder, ApplyMoney;
    if Apply(config, s, e).Refused? {
      EvolvesReflexive(s);
    } else {
      match e
      case Shop(x) => ShopStepKeeps(config, s, x);
      case Order(x) => OrderStepKeeps(s, x);
      case Money(x) => MoneyStepKeeps(config, s, x);
    }
  }

  /** Any run from a good state ends in a good state, with every row an evolution of what it was. */
  lemma {:induction false} RunKeeps(config: Config, s: State, events: seq<Event>)
    requires Inv(s)
    ensures Inv(Run(config, s, events)) && Evolves(s, Run(config, s, events))
  {
    hide Inv, Evolves, After;
    if events == [] {
      EvolvesReflexive(s);
    } else {
      var n := |events| - 1;
      var before := Run(config, s, events[..n]);
      RunKeeps(config, s, events[..n]);
      StepKeeps(config, before, events[n]);
      PayoutProofs.OrdersFresh(s);
      EvolvesTransitive(s, before, Run(config, s, events));
    }
  }

  /** The states the ledger can ever be in. */
  ghost predicate Reachable(config: Config, s: State) {
    exists start, events :: Legacy(start) && s == Run(config, start, events)
  }

  /** The ledger is in order in every reachable state. */
  lemma ReachableOk(config: Config, s: State)
    requires Reachable(config, s)
    ensures Inv(s)
  {
    hide Inv, Evolves, Run;
    var start, events :| Legacy(start) && s == Run(config, start, events);
    LegacyOk(start);
    RunKeeps(config, start, events);
  }

  lemma ReachableNext(config: Config, s: State, e: Event)
    requires Reachable(config, s)
    ensures Reachable(config, After(config, s, e))
  {
    hide After, Legacy;
    var start, events :| Legacy(start) && s == Run(config, start, events);
    var more := events + [e];
    assert more[..|more| - 1] == events;
    assert After(config, s, e) == Run(config, start, more);
  }
}
