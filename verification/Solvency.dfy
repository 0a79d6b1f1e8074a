/** Money out never exceeds money in: refunds and payouts of one checkout together stay within its charge. */
module Solvency {
  import opened Rows
  import opened Sums
  import opened Money
  import Stock
  import opened Sourcing
  import opened Refunds
  import opened Payouts
  import opened Invariants
  import opened Runs
  import RefundProofs
  import PaymentProofs
  import PaymentSafety

  // ----- The totals compared -----

  /** Live payouts of a checkout's orders, in naira. */
  ghost function PaidOutOf(orders: map<Id, Order>, c: Id): Item -> int {
    (item: Item) =>
      if item.Live() && item.order in orders && orders[item.order].checkout == Some(c) then item.amount else 0
  }

  ghost function CancelledIn(c: Id): Order -> int {
    (order: Order) => if order.checkout == Some(c) && order.status.Cancelled? then order.total else 0
  }

  ghost function FulfilledIn(c: Id): Order -> int {
    (order: Order) => if order.checkout == Some(c) && order.status.Fulfilled? then order.total else 0
  }

  // No order is both delivered and cancelled, so together they are worth at most the subtotal.
  lemma {:induction false} DisjointPrices(orders: map<Id, Order>, c: Id)
    ensures Sum(orders, CancelledIn(c)) + Sum(orders, FulfilledIn(c)) <= Sum(orders, PricedOn(c))
    ensures Sum(orders, CancelledIn(c)) >= 0 && Sum(orders, FulfilledIn(c)) >= 0
    decreases orders.Keys
  {
    if orders != map[] {
      var o :| o in orders;
      SumTake(orders, CancelledIn(c), o);
      SumTake(orders, FulfilledIn(c), o);
      SumTake(orders, PricedOn(c), o);
      assert (orders - {o}).Keys < orders.Keys;
      DisjointPrices(orders - {o}, c);
    }
  }

  // Every live payout item pays the price of a delivered order of its own.
  lemma PayoutsWithinFulfilled(checkouts: map<Id, Checkout>, orders: map<Id, Order>, payouts: map<Id, Payout>,
                               items: map<(Id, Id), Item>, c: Id)
    requires PayoutsOk(checkouts, orders, payouts, items)
    ensures Sum(items, PaidOutOf(orders, c)) <= Sum(orders, FulfilledIn(c))
  {
    var target := (item: Item) => item.order;
    forall i | i in items
      ensures PaidOutOf(orders, c)(items[i]) > 0 ==>
                target(items[i]) in orders && PaidOutOf(orders, c)(items[i]) <= FulfilledIn(c)(orders[target(items[i])])
    {
      assert ItemFits(checkouts, orders, payouts, items[i]);
    }
    SumInjects(items, PaidOutOf(orders, c), orders, FulfilledIn(c), target);
  }

  // ----- Refunds order by order -----

  /** Prices scaled up to what a refund of them may cost, so shares compare without division. */
  ghost function CancelledCost(c: Id, factor: int): Order -> int {
    (order: Order) => if order.checkout == Some(c) && order.status.Cancelled? then order.total * factor else 0
  }

  ghost function LiveCost(p: Id, factor: int): Refund -> int {
    (refund: Refund) => if refund.payment == p && refund.Live() then refund.amount * factor else 0
  }

  ghost function OrderOf(): Refund -> Id {
    (refund: Refund) => if refund.order.Some? then refund.order.value else 0
  }

  // A live refund of payment `p` is of one cancelled order, and costs at most that order's part.
  lemma RefundCost(checkout: Checkout, order: Order, payment: Payment, row: Refund, p: Id)
    requires RefundsOrder(checkout, order, payment, row)
    ensures LiveCost(p, checkout.subtotal * payment.amount)(row)
            <= CancelledCost(payment.checkout, (checkout.subtotal + checkout.serviceFee) * payment.charged)(order)
  {
    var f := (checkout.subtotal + checkout.serviceFee) * payment.charged;
    OrderShareBound(order.total, checkout.serviceFee, checkout.subtotal, payment.amount, payment.charged);
    MulNatural(checkout.subtotal, payment.amount);
    MulNatural(checkout.subtotal + checkout.serviceFee, payment.charged);
    MulNatural(order.total, f);
    MulNatural(row.amount, checkout.subtotal * payment.amount);
  }

  ghost predicate OrderByOrder(refunds: map<Id, Refund>, p: Id) {
    forall r | r in refunds && refunds[r].payment == p && refunds[r].Live() :: refunds[r].order.Some?
  }

  /**
   * Refunds made order by order add up to at most the cancelled orders' part of the charge; `orders`
   * may be any table that holds the refunded orders.
   */
  lemma RefundsWithinCancelled(s: State, p: Id, orders: map<Id, Order>)
    requires RefundsOk(s.checkouts, s.orders, s.payments, s.refunds) && OrderByOrder(s.refunds, p)
    requires p in s.payments && s.payments[p].checkout in s.checkouts
    requires forall o | o in orders :: o in s.orders && orders[o] == s.orders[o]
    requires forall o | o in s.orders && o !in orders :: !RefundedOn(s.refunds, p, o)
    ensures var payment := s.payments[p]; var checkout := s.checkouts[payment.checkout];
            Sum(s.refunds, LiveOn(p)) * (checkout.subtotal * payment.amount)
            <= Sum(orders, CancelledIn(payment.checkout)) * ((checkout.subtotal + checkout.serviceFee) * payment.charged)
  {
    var payment := s.payments[p];
    var checkout := s.checkouts[payment.checkout];
    var low := checkout.subtotal * payment.amount;
    var high := (checkout.subtotal + checkout.serviceFee) * payment.charged;
    MulNatural(checkout.subtotal, payment.amount);
    MulNatural(checkout.subtotal + checkout.serviceFee, payment.charged);
    CostsInject(s, p, orders, low, high);
    Scaled(s.refunds, p, low);
    ScaledOrders(orders, payment.checkout, high);
  }

  lemma Scaled(refunds: map<Id, Refund>, p: Id, factor: int)
    ensures Sum(refunds, LiveCost(p, factor)) == Sum(refunds, LiveOn(p)) * factor
  {
    SumScaled(refunds, LiveOn(p), LiveCost(p, factor), factor);
  }

  lemma ScaledOrders(orders: map<Id, Order>, c: Id, factor: int)
    ensures Sum(orders, CancelledCost(c, factor)) == Sum(orders, CancelledIn(c)) * factor
  {
    SumScaled(orders, CancelledIn(c), CancelledCost(c, factor), factor);
  }

  lemma CostsNatural(orders: map<Id, Order>, refunds: map<Id, Refund>, p: Id, c: Id, low: int, high: int)
    requires low >= 0 && high >= 0
    ensures forall r | r in refunds :: LiveCost(p, low)(refunds[r]) >= 0
    ensures forall o | o in orders :: CancelledCost(c, high)(orders[o]) >= 0
  {
    forall r | r in refunds
      ensures LiveCost(p, low)(refunds[r]) >= 0
    {
      MulMonotone(0, refunds[r].amount, low);
    }
    forall o | o in orders
      ensures CancelledCost(c, high)(orders[o]) >= 0
    {
      MulMonotone(0, orders[o].total, high);
    }
  }

  // A refund that costs anything is a live refund of one order of the table.
  lemma CostTarget(s: State, p: Id, orders: map<Id, Order>, r: Id, low: int, high: int)
    requires RefundsOk(s.checkouts, s.orders, s.payments, s.refunds) && OrderByOrder(s.refunds, p)
    requires p in s.payments && s.payments[p].checkout in s.checkouts
    requires forall o | o in orders :: o in s.orders && orders[o] == s.orders[o]
    requires forall o | o in s.orders && o !in orders :: !RefundedOn(s.refunds, p, o)
    requires low == s.checkouts[s.payments[p].checkout].subtotal * s.payments[p].amount
    requires high == (s.checkouts[s.payments[p].checkout].subtotal + s.checkouts[s.payments[p].checkout].serviceFee)
                     * s.payments[p].charged
    requires r in s.refunds && LiveCost(p, low)(s.refunds[r]) > 0
    ensures s.refunds[r].Live() && s.refunds[r].order.Some? && OrderOf()(s.refunds[r]) in orders
    ensures LiveCost(p, low)(s.refunds[r]) <= CancelledCost(s.payments[p].checkout, high)(orders[OrderOf()(s.refunds[r])])
  {
    var row := s.refunds[r];
    assert RefundFits(s.checkouts, s.orders, s.payments, row);
    var o := row.order.value;
    assert RefundedOn(s.refunds, p, o);
    RefundCost(s.checkouts[s.payments[p].checkout], s.orders[o], s.payments[p], row, p);
  }

  lemma CostsInject(s: State, p: Id, orders: map<Id, Order>, low: int, high: int)
    requires RefundsOk(s.checkouts, s.orders, s.payments, s.refunds) && OrderByOrder(s.refunds, p)
    requires p in s.payments && s.payments[p].checkout in s.checkouts
    requires forall o | o in orders :: o in s.orders && orders[o] == s.orders[o]
    requires forall o | o in s.orders && o !in orders :: !RefundedOn(s.refunds, p, o)
    requires low == s.checkouts[s.payments[p].checkout].subtotal * s.payments[p].amount && low >= 0
    requires high == (s.checkouts[s.payments[p].checkout].subtotal + s.checkouts[s.payments[p].checkout].serviceFee)
                     * s.payments[p].charged && high >= 0
    ensures Sum(s.refunds, LiveCost(p, low)) <= Sum(orders, CancelledCost(s.payments[p].checkout, high))
  {
    hide RefundFits, RefundedOn, LiveCost, CancelledCost, AutomaticsOk, BalancesOk, OrderByOrder;
    var c := s.payments[p].checkout;
    CostsNatural(orders, s.refunds, p, c, low, high);
    forall r | r in s.refunds && LiveCost(p, low)(s.refunds[r]) > 0
      ensures s.refunds[r].Live() && s.refunds[r].order.Some? && OrderOf()(s.refunds[r]) in orders
      ensures LiveCost(p, low)(s.refunds[r]) <= CancelledCost(c, high)(orders[OrderOf()(s.refunds[r])])
    {
      CostTarget(s, p, orders, r, low, high);
    }
    SumInjects(s.refunds, LiveCost(p, low), orders, CancelledCost(c, high), OrderOf());
  }

  // ----- The two results -----

  // Only the whole-balance refunds of the payment that paid for a checkout are whole refunds of it.
  lemma NoWholeRefund(s: State, p: Id)
    requires PaymentsOk(s.checkouts, s.payments) && p in s.payments && s.payments[p].status.Succeeded?
    requires !WholeRefund(s.payments, s.refunds, s.payments[p].checkout)
    ensures OrderByOrder(s.refunds, p)
  {
    hide PaymentFits, PaidFor;
  }

  lemma Tables(s: State, p: Id)
    requires Inv(s) && p in s.payments && s.payments[p].status.Succeeded?
    ensures PaymentsOk(s.checkouts, s.payments) && RefundsOk(s.checkouts, s.orders, s.payments, s.refunds)
    ensures PayoutsOk(s.checkouts, s.orders, s.payouts, s.items)
    ensures Excluded(s.orders, s.payments, s.refunds, s.items)
    ensures CheckoutsOk(s.checkouts, s.orders)
    ensures s.payments[p].checkout in s.checkouts && s.payments[p].charged > 0
    ensures var checkout := s.checkouts[s.payments[p].checkout];
            && checkout.status.Paid? && checkout.subtotal > 0 && s.payments[p].amount == checkout.total
            && s.payments[p].amount >= checkout.subtotal + checkout.serviceFee
            && checkout.subtotal == Sum(s.orders, PricedOn(s.payments[p].checkout))
  {
    hide Stock.StockOk, HandoversOk, ReadsOk, RefundsOk, PayoutsOk, Excluded, RequestRefs, SyncedBut, CartsOk, PaidFor;
    hide PricedOn;
    assert PaymentFits(s.checkouts, s.payments[p]);
  }

  lemma ShareOfWhole(refunded: nat, paid: nat, cancelled: nat, fulfilled: nat, subtotal: nat, fee: nat, amount: nat,
                     charged: nat)
    requires subtotal > 0 && cancelled + fulfilled <= subtotal && paid <= fulfilled && amount >= subtotal + fee
    requires refunded * (subtotal * amount) <= cancelled * ((subtotal + fee) * charged)
    ensures refunded * amount + paid * charged <= amount * charged
  {
    var whole := (subtotal + fee) * charged;
    PaidPart(paid, fulfilled, subtotal, fee, charged);
    MulNatural(subtotal + fee, charged);
    MulMonotone(cancelled + fulfilled, subtotal, whole);
    JoinParts(refunded, paid, cancelled, fulfilled, subtotal, amount, charged, whole);
    CancelFactor(refunded * amount + paid * charged, whole, subtotal);
    MulMonotone(subtotal + fee, amount, charged);
  }

  lemma PaidPart(paid: nat, fulfilled: nat, subtotal: nat, fee: nat, charged: nat)
    requires paid <= fulfilled
    ensures paid * (charged * subtotal) <= fulfilled * ((subtotal + fee) * charged)
  {
    var whole := (subtotal + fee) * charged;
    MulNatural(charged, subtotal);
    MulMonotone(paid, fulfilled, charged * subtotal);
    MulMonotone(subtotal, subtotal + fee, charged);
    MulMonotone(charged * subtotal, whole, fulfilled);
  }

  lemma JoinParts(refunded: nat, paid: nat, cancelled: nat, fulfilled: nat, subtotal: nat, amount: nat, charged: nat,
                  whole: nat)
    requires refunded * (subtotal * amount) <= cancelled * whole && paid * (charged * subtotal) <= fulfilled * whole
    requires (cancelled + fulfilled) * whole <= subtotal * whole
    ensures (refunded * amount + paid * charged) * subtotal <= whole * subtotal
  {
    assert (cancelled + fulfilled) * whole == cancelled * whole + fulfilled * whole;
    assert refunded * (subtotal * amount) == refunded * amount * subtotal;
    assert paid * (charged * subtotal) == paid * charged * subtotal;
  }

  // Nothing is paid out for orders whose money went back as part of the whole.
  lemma NothingPaidOut(s: State, c: Id)
    requires Excluded(s.orders, s.payments, s.refunds, s.items) && WholeRefund(s.payments, s.refunds, c)
    ensures Sum(s.items, PaidOutOf(s.orders, c)) == 0
  {
    hide WholeRefund;
    forall i | i in s.items
      ensures PaidOutOf(s.orders, c)(s.items[i]) == 0
    {
    }
    SumZero(s.items, PaidOutOf(s.orders, c));
  }

  lemma TotalsNatural(s: State, p: Id, c: Id)
    ensures Sum(s.refunds, LiveOn(p)) >= 0 && Sum(s.items, PaidOutOf(s.orders, c)) >= 0
  {
    SumNonNegative(s.refunds, LiveOn(p));
    SumNonNegative(s.items, PaidOutOf(s.orders, c));
  }

  lemma SolventIn(s: State, p: Id)
    requires Inv(s) && p in s.payments && s.payments[p].status.Succeeded?
    ensures var payment := s.payments[p];
            Sum(s.refunds, LiveOn(p)) * payment.amount
            + Sum(s.items, PaidOutOf(s.orders, payment.checkout)) * payment.charged
            <= payment.amount * payment.charged
  {
    hide InvBut, PaymentsOk, RefundsOk, PayoutsOk, Excluded, CheckoutsOk, WholeRefund, OrderByOrder;
    var payment := s.payments[p];
    var c := payment.checkout;
    var refunded, paid := Sum(s.refunds, LiveOn(p)), Sum(s.items, PaidOutOf(s.orders, c));
    Tables(s, p);
    TotalsNatural(s, p, c);
    if WholeRefund(s.payments, s.refunds, c) {
      NothingPaidOut(s, c);
      Balanced(s, p);
      MulMonotone(refunded, payment.charged, payment.amount);
    } else {
      NoWholeRefund(s, p);
      RefundsWithinCancelled(s, p, s.orders);
      PayoutsWithinFulfilled(s.checkouts, s.orders, s.payouts, s.items, c);
      DisjointPrices(s.orders, c);
      ShareOfWhole(refunded, paid, Sum(s.orders, CancelledIn(c)), Sum(s.orders, FulfilledIn(c)),
                   s.checkouts[c].subtotal, s.checkouts[c].serviceFee, payment.amount, payment.charged);
    }
  }

  /**
   * Solvency. In every reachable state a paid checkout has one payment, and what has gone back to the
   * buyer on it, in the charged currency, and what has gone to farmers, in naira, together never exceed
   * the charge, compared at the checkout's own rate.
   */
  lemma MoneyOutWithinMoneyIn(config: Config, s: State, c: Id)
    requires Reachable(config, s) && c in s.checkouts && s.checkouts[c].status.Paid?
    ensures exists p ::
              && PaymentSafety.SoleSuccess(s, c, p)
              && Sum(s.refunds, LiveOn(p)) * s.payments[p].amount
                 + Sum(s.items, PaidOutOf(s.orders, c)) * s.payments[p].charged
                 <= s.payments[p].amount * s.payments[p].charged
  {
    hide Reachable, Inv;
    ReachableOk(config, s);
    PaymentSafety.PaidOnce(config, s, c);
    var p :| PaymentSafety.SoleSuccess(s, c, p);
    SolventIn(s, p);
  }

  lemma Balanced(s: State, p: Id)
    requires RefundsOk(s.checkouts, s.orders, s.payments, s.refunds) && p in s.payments
    ensures Sum(s.refunds, LiveOn(p)) <= s.payments[p].charged
  {
    hide RefundFits, OneLiveRefund, AutomaticsOk;
  }

  // Adding one more order's share to the others' keeps below the charge, which the others leave room for.
  lemma RoomForOne(refunded: nat, share: nat, cancelled: nat, total: nat, subtotal: nat, fee: nat, amount: nat,
                   charged: nat)
    requires subtotal > 0 && total > 0 && charged > 0 && cancelled + total <= subtotal && amount >= subtotal + fee
    requires refunded * (subtotal * amount) <= cancelled * ((subtotal + fee) * charged)
    requires share * (subtotal * amount) <= total * ((subtotal + fee) * charged)
    ensures refunded < charged && refunded + share <= charged
  {
    var whole := (subtotal + fee) * charged;
    var scale := subtotal * amount;
    MulPositive(subtotal + fee, charged);
    MulPositive(subtotal, amount);
    assert (cancelled + total) * whole <= charged * scale by {
      MulMonotone(cancelled + total, subtotal, whole);
      MulMonotone(subtotal + fee, amount, subtotal * charged);
      assert subtotal * whole == (subtotal + fee) * (subtotal * charged);
      assert charged * scale == amount * (subtotal * charged);
    }
    assert (cancelled + total) * whole == cancelled * whole + total * whole;
    assert (refunded + share) * scale == refunded * scale + share * scale;
    CancelFactor(refunded + share, charged, scale);
    MulPositive(total, whole);
    if refunded >= charged {
      MulMonotone(charged, refunded, scale);
    }
  }

  // The cancelled orders other than `o`, and `o` itself, are worth no more than the subtotal.
  lemma OthersCancelled(orders: map<Id, Order>, c: Id, o: Id)
    requires o in orders && orders[o].checkout == Some(c) && orders[o].status.Cancelled?
    ensures Sum(orders - {o}, CancelledIn(c)) + orders[o].total <= Sum(orders, PricedOn(c))
    ensures Sum(orders - {o}, CancelledIn(c)) >= 0
  {
    SumTake(orders, CancelledIn(c), o);
    DisjointPrices(orders, c);
    SumNonNegative(orders - {o}, CancelledIn(c));
  }

  lemma OrderCostsSomething(s: State, o: Id)
    requires CheckoutsOk(s.checkouts, s.orders) && o in s.orders && s.orders[o].checkout.Some?
    ensures s.orders[o].total > 0
  {
    assert OrderFits(s.checkouts, s.orders[o]);
  }

  predicate Refundable(s: State, p: Id, o: Id)
    requires p in s.payments
  {
    && o in s.orders && s.orders[o].checkout == Some(s.payments[p].checkout) && s.orders[o].status.Cancelled?
    && !RefundedOn(s.refunds, p, o)
  }

  lemma ShareFits(s: State, p: Id, o: Id)
    requires Inv(s) && p in s.payments && s.payments[p].status.Succeeded? && Refundable(s, p, o)
    requires !WholeRefund(s.payments, s.refunds, s.payments[p].checkout)
    ensures OrderAmount(s, p, o).Ok? && Remaining(s.payments, s.refunds, p) > 0
    ensures OrderAmount(s, p, o).value <= Remaining(s.payments, s.refunds, p)
  {
    hide InvBut, PaymentsOk, RefundsOk, PayoutsOk, Excluded, CheckoutsOk, WholeRefund, OrderByOrder, RefundedOn;
    hide OrderShare;
    var payment := s.payments[p];
    var c := payment.checkout;
    Tables(s, p);
    var checkout := s.checkouts[c];
    TotalsNatural(s, p, c);
    NoWholeRefund(s, p);
    OrderCostsSomething(s, o);
    RefundsWithinCancelled(s, p, s.orders - {o});
    OthersCancelled(s.orders, c, o);
    OrderShareBound(s.orders[o].total, checkout.serviceFee, checkout.subtotal, payment.amount, payment.charged);
    RoomForOne(Sum(s.refunds, LiveOn(p)),
               OrderShare(s.orders[o].total, checkout.serviceFee, checkout.subtotal, payment.amount, payment.charged),
               Sum(s.orders - {o}, CancelledIn(c)), s.orders[o].total, checkout.subtotal, checkout.serviceFee,
               payment.amount, payment.charged);
  }

  /**
   * Order refunds always fit. While no refund of the whole is live, refunding an order of a paid
   * checkout goes through exactly when the order is cancelled and not already refunded: rounding
   * down leaves room for every share, so the balance is never what stands in the way.
   */
  lemma OrderRefundsFit(config: Config, s: State, p: Id, o: Id)
    requires Reachable(config, s) && p in s.payments && s.payments[p].status.Succeeded?
    requires !WholeRefund(s.payments, s.refunds, s.payments[p].checkout)
    ensures RefundStep(s, p, Some(o)).Ok? <==> Refundable(s, p, o)
    ensures RefundStep(s, p, Some(o)).Refused? ==>
              RefundStep(s, p, Some(o)).error in {OrderNotRefundable, OrderAlreadyRefunded}
  {
    hide Reachable, InvBut, WholeRefund, RefundedOn;
    ReachableOk(config, s);
    if Refundable(s, p, o) {
      ShareFits(s, p, o);
    }
  }

  /** In every reachable state the live refunds of any payment, orphaned ones included, are within its charge. */
  lemma RefundsWithinCharge(config: Config, s: State, p: Id)
    requires Reachable(config, s) && p in s.payments
    ensures 0 <= Sum(s.refunds, LiveOn(p)) <= s.payments[p].charged
  {
    hide Reachable, InvBut, PaymentsOk, RefundsOk, Excluded;
    ReachableOk(config, s);
    RefundProofs.RefundTables(s);
    Balanced(s, p);
    SumNonNegative(s.refunds, LiveOn(p));
  }

  /** In naira the two currencies are one: what went back and what went out stay within what came in. */
  lemma NairaOutWithinNairaIn(config: Config, s: State, p: Id)
    requires Reachable(config, s) && p in s.payments && s.payments[p].status.Succeeded? && s.payments[p].currency.Ngn?
    ensures Sum(s.refunds, LiveOn(p)) + Sum(s.items, PaidOutOf(s.orders, s.payments[p].checkout)) <= s.payments[p].charged
    ensures s.payments[p].checkout in s.checkouts && s.payments[p].charged == s.checkouts[s.payments[p].checkout].total
  {
    hide Reachable, Inv, LiveOn, PaidOutOf, PaidFor;
    ReachableOk(config, s);
    PaymentProofs.PaymentTables(s);
    var payment := s.payments[p];
    assert PaymentFits(s.checkouts, payment);
    SolventIn(s, p);
    var refunded, paid := Sum(s.refunds, LiveOn(p)), Sum(s.items, PaidOutOf(s.orders, payment.checkout));
    assert (refunded + paid) * payment.amount == refunded * payment.amount + paid * payment.charged;
    CancelFactor(refunded + paid, payment.charged, payment.amount);
  }

  // ----- What one refund does to the balance -----

  /**
   * A refund of the whole goes through exactly when the money was orphaned, or paid for a checkout none of
   * whose orders is being paid out, and some of it is left. It takes all that is left, so that no further
   * refund of that payment goes through.
   */
  lemma WholeRefundTakesAll(config: Config, s: State, p: Id)
    requires Reachable(config, s) && p in s.payments
    ensures RefundStep(s, p, None).Ok? <==>
              && (s.payments[p].status.Orphaned? ||
                  (s.payments[p].status.Succeeded? && !LiveItemOn(s.items, s.orders, s.payments[p].checkout)))
              && Sum(s.refunds, LiveOn(p)) < s.payments[p].charged
    ensures RefundStep(s, p, None).Ok? ==>
              var t := RefundStep(s, p, None).value;
              && p in t.payments && t.payments[p] == s.payments[p]
              && Sum(t.refunds, LiveOn(p)) == t.payments[p].charged
              && forall order :: RefundStep(t, p, order).Refused?
  {
    hide Reachable, Inv, LiveItemOn, OrderAmount, LiveOn;
    ReachableOk(config, s);
    RefundsFresh(s);
    if RefundStep(s, p, None).Ok? {
      TakesAll(s, p);
    }
  }

  lemma RefundsFresh(s: State)
    requires Inv(s)
    ensures s.next !in s.refunds
  {
    hide RefundsOk, PaymentsOk, Excluded;
    RefundProofs.RefundTables(s);
  }

  lemma TakesAll(s: State, p: Id)
    requires p in s.payments && s.next !in s.refunds && RefundStep(s, p, None).Ok?
    ensures Sum(RefundStep(s, p, None).value.refunds, LiveOn(p)) == s.payments[p].charged
  {
    var row := Rows.Refund.Refund(p, None, Remaining(s.payments, s.refunds, p), RefundStatus.Pending, false);
    SumInsert(s.refunds, LiveOn(p), s.next, row);
  }

  /** A refund that fails gives its amount back to the balance; one that is processed does not move it. */
  lemma FailedRefundComesBack(s: State, r: Id, processed: bool)
    requires r in s.refunds && s.refunds[r].status.Pending? && s.refunds[r].payment in s.payments
    ensures SettleRefund(s, r, processed).Ok?
    ensures var p, t := s.refunds[r].payment, SettleRefund(s, r, processed).value;
            && p in t.payments
            && Remaining(t.payments, t.refunds, p)
               == Remaining(s.payments, s.refunds, p) + if processed then 0 else s.refunds[r].amount
  {
    var t := SettleRefund(s, r, processed).value;
    SumUpdate(s.refunds, LiveOn(s.refunds[r].payment), r, t.refunds[r]);
  }
}
