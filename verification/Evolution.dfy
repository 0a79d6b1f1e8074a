/**
 * How rows may change from one state to a later one: facts never change, statuses only move
 * forward, and some statuses are final. Whatever was recorded about a row that evolves this way
 * stays true of it.
 */
module Evolution {
  import opened Rows
  import opened Sums
  import opened Refunds
  import opened Payouts
  import opened Invariants

  function Progress(status: OrderStatus): nat {
    match status
    case AwaitingPayment => 0
    case Pending => 1
    case Confirmed => 2
    case Preparing => 3
    case Ready => 4
    case Shipped => 5
    case Fulfilled => 6
    case Cancelled => 7
  }

  // Forward one way, or cancelled before the goods are ready. Fulfilled and cancelled are final.
  predicate OrderReaches(a: OrderStatus, b: OrderStatus) {
    a == b || (if b.Cancelled? then Progress(a) <= 3 else Progress(a) < Progress(b))
  }

  predicate CheckoutReaches(a: CheckoutStatus, b: CheckoutStatus) {
    a == b || a.AwaitingPayment?
  }

  predicate Settled(status: PaymentStatus) {
    status.Succeeded? || status.Orphaned?
  }

  predicate PaymentReaches(a: PaymentStatus, b: PaymentStatus) {
    a == b || (!Settled(a) && !b.Pending?)
  }

  predicate RefundReaches(a: RefundStatus, b: RefundStatus) {
    a == b || a.Pending?
  }

  predicate PayoutReaches(a: PayoutStatus, b: PayoutStatus) {
    a == b || a.Pending? || (a.Succeeded? && b.Reversed?)
  }

  // A paid request only moves on, and a finished one stays finished.
  predicate RequestReaches(a: RequestStatus, b: RequestStatus) {
    match a
    case Closed => b.Closed?
    case Completed => b.Completed?
    case Fulfilment => b.Fulfilment? || b.Completed?
    case Confirmed => b.Confirmed? || b.Fulfilment? || b.Completed? || b.Closed?
    case _ => true
  }

  ghost predicate OrdersEvolve(before: map<Id, Order>, after: map<Id, Order>, next: Id) {
    && (forall o | o in before ::
          if o in after then SameFacts(before[o], after[o]) && OrderReaches(before[o].status, after[o].status)
          else before[o].checkout.None?)
    && (forall o | o in after && o !in before ::
          o >= next && after[o].checkout.Some? && after[o].checkout.value >= next)
  }

  ghost predicate CheckoutsEvolve(before: map<Id, Checkout>, after: map<Id, Checkout>) {
    forall c | c in before ::
      c in after && after[c] == before[c].(status := after[c].status) && CheckoutReaches(before[c].status, after[c].status)
  }

  ghost predicate PaymentsEvolve(before: map<Id, Payment>, after: map<Id, Payment>) {
    forall p | p in before ::
      p in after && after[p] == before[p].(status := after[p].status) && PaymentReaches(before[p].status, after[p].status)
  }

  ghost predicate RefundsEvolve(before: map<Id, Refund>, after: map<Id, Refund>) {
    forall r | r in before ::
      r in after && after[r] == before[r].(status := after[r].status) && RefundReaches(before[r].status, after[r].status)
  }

  ghost predicate PayoutsEvolve(before: map<Id, Payout>, after: map<Id, Payout>) {
    forall p | p in before ::
      p in after && after[p] == before[p].(status := after[p].status) && PayoutReaches(before[p].status, after[p].status)
  }

  ghost predicate ItemsEvolve(before: map<(Id, Id), Item>, after: map<(Id, Id), Item>) {
    forall i | i in before ::
      i in after && after[i] == before[i].(status := after[i].status) && PayoutReaches(before[i].status, after[i].status)
  }

  ghost predicate RequestsEvolve(before: map<Id, Request>, after: map<Id, Request>) {
    forall r | r in before ::
      && r in after && RequestReaches(before[r].status, after[r].status) && (before[r].closed ==> after[r].closed)
      && after[r].buyer == before[r].buyer
  }

  ghost predicate RowsEvolve(s: State, t: State) {
    && s.next <= t.next
    && OrdersEvolve(s.orders, t.orders, s.next)
    && CheckoutsEvolve(s.checkouts, t.checkouts)
    && PaymentsEvolve(s.payments, t.payments)
    && RefundsEvolve(s.refunds, t.refunds)
    && PayoutsEvolve(s.payouts, t.payouts)
    && ItemsEvolve(s.items, t.items)
  }

  ghost predicate Evolves(s: State, t: State) {
    RowsEvolve(s, t) && RequestsEvolve(s.requests, t.requests)
  }

  lemma EvolvesReflexive(s: State)
    ensures Evolves(s, s)
  {
  }

  lemma OrdersEvolveOn(a: map<Id, Order>, b: map<Id, Order>, c: map<Id, Order>, next: Id, next': Id)
    requires OrdersEvolve(a, b, next) && OrdersEvolve(b, c, next') && next <= next'
    requires forall o | o in a :: o < next'
    ensures OrdersEvolve(a, c, next)
  {
  }

  lemma RequestsEvolveOn(a: map<Id, Request>, b: map<Id, Request>, c: map<Id, Request>)
    requires RequestsEvolve(a, b) && RequestsEvolve(b, c)
    ensures RequestsEvolve(a, c)
  {
  }

  lemma MoneyEvolvesOn(s: State, t: State, u: State)
    requires PaymentsEvolve(s.payments, t.payments) && PaymentsEvolve(t.payments, u.payments)
    requires RefundsEvolve(s.refunds, t.refunds) && RefundsEvolve(t.refunds, u.refunds)
    requires PayoutsEvolve(s.payouts, t.payouts) && PayoutsEvolve(t.payouts, u.payouts)
    ensures PaymentsEvolve(s.payments, u.payments)
    ensures RefundsEvolve(s.refunds, u.refunds)
    ensures PayoutsEvolve(s.payouts, u.payouts)
  {
  }

  lemma ItemsEvolveOn(a: map<(Id, Id), Item>, b: map<(Id, Id), Item>, c: map<(Id, Id), Item>)
    requires ItemsEvolve(a, b) && ItemsEvolve(b, c)
    ensures ItemsEvolve(a, c)
  {
  }

  lemma CheckoutsEvolveOn(a: map<Id, Checkout>, b: map<Id, Checkout>, c: map<Id, Checkout>)
    requires CheckoutsEvolve(a, b) && CheckoutsEvolve(b, c)
    ensures CheckoutsEvolve(a, c)
  {
  }

  lemma EvolvesTransitive(s: State, t: State, u: State)
    requires (forall o | o in s.orders :: o < s.next) && Evolves(s, t) && Evolves(t, u)
    ensures Evolves(s, u)
  {
    OrdersEvolveOn(s.orders, t.orders, u.orders, s.next, t.next);
    CheckoutsEvolveOn(s.checkouts, t.checkouts, u.checkouts);
    RequestsEvolveOn(s.requests, t.requests, u.requests);
    MoneyEvolvesOn(s, t, u);
    ItemsEvolveOn(s.items, t.items, u.items);
  }

  // ----- What survives an evolution -----

  lemma ReadsKept(seen: map<Id, Read<Order>>, orders: map<Id, Order>, orders': map<Id, Order>, next: Id, next': Id)
    requires ReadsOk(seen, orders, next) && OrdersEvolve(orders, orders', next) && next <= next'
    ensures ReadsOk(seen, orders', next')
  {
  }

  lemma RefundFitKept(checkouts: map<Id, Checkout>, orders: map<Id, Order>, payments: map<Id, Payment>,
                      checkouts': map<Id, Checkout>, orders': map<Id, Order>, payments': map<Id, Payment>, next: Id,
                      row: Refund)
    requires RefundFits(checkouts, orders, payments, row)
    requires OrdersEvolve(orders, orders', next)
    requires CheckoutsEvolve(checkouts, checkouts') && PaymentsEvolve(payments, payments')
    ensures RefundFits(checkouts', orders', payments', row)
  {
  }

  lemma BalancesKept(payments: map<Id, Payment>, payments': map<Id, Payment>, refunds: map<Id, Refund>)
    requires forall r | r in refunds :: refunds[r].payment in payments
    requires BalancesOk(payments, refunds) && PaymentsEvolve(payments, payments')
    ensures BalancesOk(payments', refunds)
  {
    forall p | p in payments'
      ensures Sum(refunds, LiveOn(p)) <= payments'[p].charged
    {
      if p !in payments {
        SumZero(refunds, LiveOn(p));
      }
    }
  }

  // Nothing has been orphaned meanwhile.
  predicate NoNewOrphan(payments: map<Id, Payment>, payments': map<Id, Payment>) {
    forall p | p in payments' && payments'[p].status.Orphaned? :: p in payments && payments[p].status.Orphaned?
  }

  lemma RefundsKept(checkouts: map<Id, Checkout>, orders: map<Id, Order>, payments: map<Id, Payment>,
                    checkouts': map<Id, Checkout>, orders': map<Id, Order>, payments': map<Id, Payment>, next: Id,
                    refunds: map<Id, Refund>)
    requires RefundsOk(checkouts, orders, payments, refunds)
    requires OrdersEvolve(orders, orders', next)
    requires CheckoutsEvolve(checkouts, checkouts') && PaymentsEvolve(payments, payments')
    requires NoNewOrphan(payments, payments')
    ensures RefundsOk(checkouts', orders', payments', refunds)
  {
    forall r | r in refunds {
      RefundFitKept(checkouts, orders, payments, checkouts', orders', payments', next, refunds[r]);
    }
    BalancesKept(payments, payments', refunds);
  }

  lemma PayoutsKept(checkouts: map<Id, Checkout>, orders: map<Id, Order>, checkouts': map<Id, Checkout>,
                    orders': map<Id, Order>, next: Id, payouts: map<Id, Payout>, items: map<(Id, Id), Item>)
    requires PayoutsOk(checkouts, orders, payouts, items)
    requires OrdersEvolve(orders, orders', next) && CheckoutsEvolve(checkouts, checkouts')
    ensures PayoutsOk(checkouts', orders', payouts, items)
  {
    forall i | i in items
      ensures ItemFits(checkouts', orders', payouts, items[i])
    {
      var o := items[i].order;
      assert ItemFits(checkouts, orders, payouts, items[i]);
      assert o in orders' && SameFacts(orders[o], orders'[o]);
    }
  }

  lemma WholeRefundKept(checkouts: map<Id, Checkout>, orders: map<Id, Order>, payments: map<Id, Payment>,
                        payments': map<Id, Payment>, refunds: map<Id, Refund>, c: Id)
    requires forall r | r in refunds :: RefundFits(checkouts, orders, payments, refunds[r])
    requires PaymentsEvolve(payments, payments')
    ensures WholeRefund(payments', refunds, c) <==> WholeRefund(payments, refunds, c)
  {
  }

  lemma ExclusionKept(checkouts: map<Id, Checkout>, orders: map<Id, Order>, payments: map<Id, Payment>,
                      orders': map<Id, Order>, payments': map<Id, Payment>, next: Id, payouts: map<Id, Payout>,
                      refunds: map<Id, Refund>, items: map<(Id, Id), Item>)
    requires Excluded(orders, payments, refunds, items)
    requires forall r | r in refunds :: RefundFits(checkouts, orders, payments, refunds[r])
    requires forall i | i in items :: ItemFits(checkouts, orders, payouts, items[i])
    requires OrdersEvolve(orders, orders', next) && PaymentsEvolve(payments, payments')
    ensures Excluded(orders', payments', refunds, items)
  {
    forall i | i in items && items[i].Live() && items[i].order in orders' && orders'[items[i].order].checkout.Some?
      ensures !WholeRefund(payments', refunds, orders'[items[i].order].checkout.value)
    {
      var o := items[i].order;
      assert ItemFits(checkouts, orders, payouts, items[i]);
      assert SameFacts(orders[o], orders'[o]);
      WholeRefundKept(checkouts, orders, payments, payments', refunds, orders[o].checkout.value);
    }
  }

  /** Refunds, payouts and their exclusion survive any evolution of the rows they rest on. */
  lemma MoneyKept(s: State, t: State)
    requires RefundsOk(s.checkouts, s.orders, s.payments, s.refunds)
    requires PayoutsOk(s.checkouts, s.orders, s.payouts, s.items)
    requires Excluded(s.orders, s.payments, s.refunds, s.items)
    requires OrdersEvolve(s.orders, t.orders, s.next)
    requires CheckoutsEvolve(s.checkouts, t.checkouts) && PaymentsEvolve(s.payments, t.payments)
    requires NoNewOrphan(s.payments, t.payments)
    requires t.refunds == s.refunds && t.payouts == s.payouts && t.items == s.items
    ensures RefundsOk(t.checkouts, t.orders, t.payments, t.refunds)
    ensures PayoutsOk(t.checkouts, t.orders, t.payouts, t.items)
    ensures Excluded(t.orders, t.payments, t.refunds, t.items)
  {
    RefundsKept(s.checkouts, s.orders, s.payments, t.checkouts, t.orders, t.payments, s.next, s.refunds);
    PayoutsKept(s.checkouts, s.orders, t.checkouts, t.orders, s.next, s.payouts, s.items);
    ExclusionKept(s.checkouts, s.orders, s.payments, t.orders, t.payments, s.next, s.payouts, s.refunds, s.items);
  }
}
