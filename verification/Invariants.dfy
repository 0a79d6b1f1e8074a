/**
 * What holds of the ledger in every reachable state, one predicate a subject, and how its rows may
 * change from one state to the next.
 */
module Invariants {
  import opened Rows
  import opened Sums
  import opened Money
  import Stock
  import Orders
  import opened Sourcing
  import opened Refunds
  import opened Payouts

  ghost predicate FreshOk(s: State) {
    && (forall l | l in s.listings :: l < s.next)
    && (forall o | o in s.orders :: o < s.next)
    && (forall c | c in s.checkouts :: c < s.next)
    && (forall p | p in s.payments :: p < s.next)
    && (forall r | r in s.refunds :: r < s.next)
    && (forall p | p in s.payouts :: p < s.next)
    && (forall r | r in s.requests :: r < s.next)
  }

  // ----- Orders and their checkouts -----

  predicate SameFacts(a: Order, b: Order) {
    && a.listing == b.listing && a.farm == b.farm && a.farmer == b.farmer && a.buyer == b.buyer
    && a.checkout == b.checkout && a.quantity == b.quantity && a.total == b.total
  }

  // Which statuses of an order a checkout's status allows.
  predicate Agrees(checkout: CheckoutStatus, order: OrderStatus) {
    match checkout
    case AwaitingPayment => order.AwaitingPayment?
    case Paid => !order.AwaitingPayment?
    case Expired => order.Cancelled?
    case Cancelled => order.Cancelled?
  }

  predicate OrderFits(checkouts: map<Id, Checkout>, order: Order) {
    match order.checkout
    case None => !order.status.AwaitingPayment?
    case Some(c) => c in checkouts && order.total > 0 && Agrees(checkouts[c].status, order.status)
  }

  ghost function PricedOn(c: Id): Order -> int {
    (order: Order) => if order.checkout == Some(c) then order.total else 0
  }

  ghost predicate CheckoutsOk(checkouts: map<Id, Checkout>, orders: map<Id, Order>) {
    && (forall o | o in orders :: OrderFits(checkouts, orders[o]))
    && (forall c | c in checkouts ::
          && checkouts[c].subtotal > 0
          && checkouts[c].total == checkouts[c].subtotal + checkouts[c].deliveryFee + checkouts[c].serviceFee
          && checkouts[c].subtotal == Sum(orders, PricedOn(c)))
    && (forall c, d | c in checkouts && d in checkouts &&
          checkouts[c].buyer == checkouts[d].buyer && checkouts[c].key == checkouts[d].key :: c == d)
  }

  // ----- Preparation and handover -----

  predicate Handled(order: Order) {
    && (order.status.Ready? <==> order.handover.Some? && !order.handover.value.status.HandedOver?)
    && (order.status.Shipped? || order.status.Fulfilled? <==>
          order.handover.Some? && order.handover.value.status.HandedOver?)
    && (order.status.Preparing? ==> order.checklist.Some?)
    && (order.handover.Some? ==> order.checklist.Some? && order.checklist.value.Complete())
  }

  ghost predicate HandoversOk(orders: map<Id, Order>, clusters: map<Id, Id>) {
    forall o | o in orders ::
      Handled(orders[o]) && (orders[o].farm in clusters ==> !Orders.Agentless(orders[o]))
  }

  ghost predicate ReadsOk(seen: map<Id, Read<Order>>, orders: map<Id, Order>, next: Id) {
    forall session | session in seen ::
      && seen[session].id < next
      && (seen[session].id in orders ==> SameFacts(seen[session].row, orders[seen[session].id]))
  }

  // ----- Payments -----

  predicate PaymentFits(checkouts: map<Id, Checkout>, payment: Payment) {
    && payment.checkout in checkouts
    && payment.amount == checkouts[payment.checkout].total
    && payment.charged > 0
    && (payment.currency.Ngn? ==> payment.charged == payment.amount)
    && (payment.status.Succeeded? ==> checkouts[payment.checkout].status.Paid?)
    && (payment.status.Pending? ==>
          checkouts[payment.checkout].status.AwaitingPayment? || checkouts[payment.checkout].status.Paid?)
  }

  ghost predicate PaidFor(payments: map<Id, Payment>, c: Id) {
    exists p | p in payments :: payments[p].checkout == c && payments[p].status.Succeeded?
  }

  ghost predicate PaymentsOk(checkouts: map<Id, Checkout>, payments: map<Id, Payment>) {
    && (forall p | p in payments :: PaymentFits(checkouts, payments[p]))
    && (forall p, q | p in payments && q in payments && payments[p].checkout == payments[q].checkout &&
          payments[p].status == payments[q].status && (payments[p].status.Succeeded? || payments[p].status.Pending?) ::
          p == q)
    && (forall p, q | p in payments && q in payments && payments[p].checkout == payments[q].checkout &&
          payments[p].key == payments[q].key :: p == q)
    && (forall c | c in checkouts && checkouts[c].status.Paid? :: PaidFor(payments, c))
  }

  // ----- Refunds -----

  predicate RefundFits(checkouts: map<Id, Checkout>, orders: map<Id, Order>, payments: map<Id, Payment>, row: Refund) {
    && row.payment in payments
    && var payment := payments[row.payment];
    && (payment.status.Succeeded? || payment.status.Orphaned?)
    && payment.checkout in checkouts
    && (row.automatic ==> payment.status.Orphaned? && row.order.None? && row.amount == payment.charged)
    && (row.order.Some? ==>
          && payment.status.Succeeded?
          && row.order.value in orders
          && RefundsOrder(checkouts[payment.checkout], orders[row.order.value], payment, row))
  }

  predicate RefundsOrder(checkout: Checkout, order: Order, payment: Payment, row: Refund) {
    && order.checkout == Some(payment.checkout)
    && order.status.Cancelled?
    && checkout.subtotal > 0 && payment.amount > 0
    && row.amount == OrderShare(order.total, checkout.serviceFee, checkout.subtotal, payment.amount, payment.charged)
  }

  ghost predicate OneLiveRefund(refunds: map<Id, Refund>) {
    forall r, q | r in refunds && q in refunds && refunds[r].Live() && refunds[q].Live() &&
      refunds[r].order.Some? && refunds[r].order == refunds[q].order :: r == q
  }

  ghost predicate HasAutomatic(refunds: map<Id, Refund>, p: Id) {
    exists r | r in refunds :: refunds[r].payment == p && refunds[r].automatic
  }

  // Orphaned money goes back exactly once without anybody asking.
  ghost predicate AutomaticsOk(payments: map<Id, Payment>, refunds: map<Id, Refund>) {
    && (forall p | p in payments && payments[p].status.Orphaned? :: HasAutomatic(refunds, p))
    && (forall r, q | r in refunds && q in refunds && refunds[r].automatic && refunds[q].automatic &&
          refunds[r].payment == refunds[q].payment :: r == q)
  }

  ghost predicate BalancesOk(payments: map<Id, Payment>, refunds: map<Id, Refund>) {
    forall p | p in payments :: Sum(refunds, LiveOn(p)) <= payments[p].charged
  }

  ghost predicate RefundsOk(checkouts: map<Id, Checkout>, orders: map<Id, Order>, payments: map<Id, Payment>,
                            refunds: map<Id, Refund>)
  {
    && (forall r | r in refunds :: RefundFits(checkouts, orders, payments, refunds[r]))
    && OneLiveRefund(refunds)
    && AutomaticsOk(payments, refunds)
    && BalancesOk(payments, refunds)
  }

  // ----- Payouts -----

  predicate ItemFits(checkouts: map<Id, Checkout>, orders: map<Id, Order>, payouts: map<Id, Payout>, item: Item) {
    && item.payout in payouts && item.status == payouts[item.payout].status
    && item.order in orders
    && orders[item.order].farmer == payouts[item.payout].farmer
    && orders[item.order].total == item.amount
    && orders[item.order].status.Fulfilled?
    && orders[item.order].checkout.Some? && orders[item.order].checkout.value in checkouts
    && checkouts[orders[item.order].checkout.value].status.Paid?
  }

  ghost predicate OneLiveItem(items: map<(Id, Id), Item>) {
    forall i, j | i in items && j in items && items[i].Live() && items[j].Live() && items[i].order == items[j].order ::
      i == j
  }

  ghost predicate PayoutsOk(checkouts: map<Id, Checkout>, orders: map<Id, Order>, payouts: map<Id, Payout>,
                            items: map<(Id, Id), Item>)
  {
    && (forall i | i in items :: i == (items[i].payout, items[i].order) && ItemFits(checkouts, orders, payouts, items[i]))
    && OneLiveItem(items)
    && (forall p | p in payouts :: payouts[p].amount == Sum(items, ItemsOf(p)))
  }

  // Nobody is paid for an order whose money went back to the buyer as part of the whole.
  ghost predicate Excluded(orders: map<Id, Order>, payments: map<Id, Payment>, refunds: map<Id, Refund>,
                           items: map<(Id, Id), Item>)
  {
    forall i | i in items && items[i].Live() && items[i].order in orders && orders[items[i].order].checkout.Some? ::
      !WholeRefund(payments, refunds, orders[items[i].order].checkout.value)
  }

  // ----- Sourcing requests -----

  predicate SyncedRow(row: Request, r: Id, checkouts: map<Id, Checkout>, orders: map<Id, Order>) {
    var view := ViewOf(row, r, checkouts, orders);
    row.status == DeriveRequestStatus(view) && (AllCancelled(view.paid) ==> row.closed)
  }

  ghost predicate RequestRefs(requests: map<Id, Request>, checkouts: map<Id, Checkout>) {
    && (forall c | c in checkouts && checkouts[c].request.Some? :: checkouts[c].request.value in requests)
    && OneLiveEach(checkouts)
    && (forall r, l | r in requests && l in requests[r].allocations :: requests[r].allocations[l] > 0)
  }

  ghost predicate OneLiveEach(checkouts: map<Id, Checkout>) {
    forall c, d | c in checkouts && d in checkouts && checkouts[c].request.Some? &&
      checkouts[c].request == checkouts[d].request && LiveCheckout(checkouts[c]) && LiveCheckout(checkouts[d]) :: c == d
  }

  predicate LiveCheckout(row: Checkout) {
    row.status.AwaitingPayment? || row.status.Paid?
  }

  // Every request but `stale` stores the status its rows derive.
  ghost predicate SyncedBut(stale: Option<Id>, requests: map<Id, Request>, checkouts: map<Id, Checkout>,
                            orders: map<Id, Order>)
  {
    forall r | r in requests && stale != Some(r) :: SyncedRow(requests[r], r, checkouts, orders)
  }

  ghost predicate CartsOk(carts: map<Id, map<Id, nat>>) {
    forall b, l | b in carts && l in carts[b] :: carts[b][l] > 0
  }

  // Everything but the stored status of one request, which a transaction rewrites last.
  ghost predicate InvBut(stale: Option<Id>, s: State) {
    && FreshOk(s)
    && Stock.StockOk(s.listings, s.orders)
    && CheckoutsOk(s.checkouts, s.orders)
    && HandoversOk(s.orders, s.clusters)
    && ReadsOk(s.orderReads, s.orders, s.next)
    && PaymentsOk(s.checkouts, s.payments)
    && RefundsOk(s.checkouts, s.orders, s.payments, s.refunds)
    && PayoutsOk(s.checkouts, s.orders, s.payouts, s.items)
    && Excluded(s.orders, s.payments, s.refunds, s.items)
    && RequestRefs(s.requests, s.checkouts)
    && SyncedBut(stale, s.requests, s.checkouts, s.orders)
    && CartsOk(s.carts)
  }

  ghost predicate Inv(s: State) {
    InvBut(None, s)
  }
}
