/** What refunding keeps: the balance of a payment, and the wall between refunds and payouts. */
module RefundProofs {
  import opened Rows
  import opened Sums
  import opened Money
  import Stock
  import opened Sourcing
  import opened Refunds
  import opened Payouts
  import opened Invariants
  import opened Evolution

  // A change of refunds alone.
  lemma RefundsKeep(s: State, refunds: map<Id, Refund>, next: Id)
    requires Inv(s) && RefundsOk(s.checkouts, s.orders, s.payments, refunds)
    requires Excluded(s.orders, s.payments, refunds, s.items)
    requires RefundsEvolve(s.refunds, refunds) && next >= s.next
    requires forall r | r in refunds :: r < next
    ensures var t := s.(refunds := refunds, next := next); Inv(t) && Evolves(s, t)
  {
    hide Stock.StockOk, CheckoutsOk, HandoversOk, PaymentsOk, RefundsOk, PayoutsOk, Excluded, RequestRefs;
    hide SyncedBut, CartsOk;
    hide OrdersEvolve, CheckoutsEvolve, PaymentsEvolve, RefundsEvolve, PayoutsEvolve, ItemsEvolve, RequestsEvolve;
    EvolvesReflexive(s);
  }

  lemma RefundTables(s: State)
    requires Inv(s)
    ensures PaymentsOk(s.checkouts, s.payments) && RefundsOk(s.checkouts, s.orders, s.payments, s.refunds)
    ensures Excluded(s.orders, s.payments, s.refunds, s.items) && (forall r | r in s.refunds :: r < s.next)
    ensures forall p | p in s.payments :: s.payments[p].checkout in s.checkouts
  {
    hide Stock.StockOk, CheckoutsOk, HandoversOk, ReadsOk, RefundsOk, PayoutsOk, Excluded, RequestRefs, SyncedBut;
    hide CartsOk, PaidFor;
  }

  // Every refund of an order is on the one payment that paid for it.
  lemma OnePayer(checkouts: map<Id, Checkout>, orders: map<Id, Order>, payments: map<Id, Payment>, p: Id, row: Refund)
    requires PaymentsOk(checkouts, payments) && RefundFits(checkouts, orders, payments, row) && row.order.Some?
    requires p in payments && payments[p].status.Succeeded?
    requires orders[row.order.value].checkout == Some(payments[p].checkout)
    ensures row.payment == p
  {
    hide PaymentFits, PaidFor;
  }

  lemma StillOneEach(checkouts: map<Id, Checkout>, orders: map<Id, Order>, payments: map<Id, Payment>,
                     refunds: map<Id, Refund>, r: Id, row: Refund)
    requires PaymentsOk(checkouts, payments) && OneLiveRefund(refunds) && r !in refunds
    requires forall q | q in refunds :: RefundFits(checkouts, orders, payments, refunds[q])
    requires row.order.Some? ==>
               RefundFits(checkouts, orders, payments, row) && !RefundedOn(refunds, row.payment, row.order.value)
    ensures OneLiveRefund(refunds[r := row])
  {
    hide PaymentsOk, RefundFits;
    if row.order.Some? {
      forall q | q in refunds && refunds[q].Live()
        ensures refunds[q].order != row.order
      {
        if refunds[q].order == row.order {
          RowFits(checkouts, orders, payments, row);
          OnePayer(checkouts, orders, payments, row.payment, refunds[q]);
        }
      }
    }
  }

  lemma RowFits(checkouts: map<Id, Checkout>, orders: map<Id, Order>, payments: map<Id, Payment>, row: Refund)
    requires RefundFits(checkouts, orders, payments, row) && row.order.Some?
    ensures row.payment in payments && payments[row.payment].status.Succeeded? && row.order.value in orders
    ensures orders[row.order.value].checkout == Some(payments[row.payment].checkout)
  {
  }

  lemma StillBalanced(payments: map<Id, Payment>, refunds: map<Id, Refund>, r: Id, row: Refund)
    requires BalancesOk(payments, refunds) && r !in refunds && row.payment in payments
    requires row.amount <= Remaining(payments, refunds, row.payment)
    ensures BalancesOk(payments, refunds[r := row])
  {
    forall p | p in payments
      ensures Sum(refunds[r := row], LiveOn(p)) <= payments[p].charged
    {
      SumInsert(refunds, LiveOn(p), r, row);
    }
  }

  lemma StillAutomatic(payments: map<Id, Payment>, refunds: map<Id, Refund>, r: Id, row: Refund)
    requires AutomaticsOk(payments, refunds) && r !in refunds && !row.automatic
    ensures AutomaticsOk(payments, refunds[r := row])
  {
    forall p | p in payments && payments[p].status.Orphaned?
      ensures HasAutomatic(refunds[r := row], p)
    {
      var q :| q in refunds && refunds[q].payment == p && refunds[q].automatic;
      assert refunds[r := row][q] == refunds[q];
    }
  }

  // What has to hold, when it commits, of a refund an admin asked for.
  ghost predicate MayRefund(s: State, p: Id, order: Option<Id>, amount: nat) {
    && p in s.payments && s.payments[p].checkout in s.checkouts
    && var payment := s.payments[p];
    && (payment.status.Succeeded? || (order.None? && payment.status.Orphaned?))
    && amount <= Remaining(s.payments, s.refunds, p)
    && (order.None? && payment.status.Succeeded? ==> !LiveItemOn(s.items, s.orders, payment.checkout))
    && (order.Some? ==>
          && order.value in s.orders && !RefundedOn(s.refunds, p, order.value)
          && RefundsOrder(s.checkouts[payment.checkout], s.orders[order.value], payment, Asked(p, order, amount)))
  }

  function Asked(p: Id, order: Option<Id>, amount: nat): Refund {
    Refund(p, order, amount, RefundStatus.Pending, false)
  }

  function Refunded(s: State, row: Refund): State {
    s.(refunds := s.refunds[s.next := row], next := s.next + 1)
  }

  lemma AskedFits(s: State, p: Id, order: Option<Id>, amount: nat)
    requires MayRefund(s, p, order, amount)
    ensures RefundFits(s.checkouts, s.orders, s.payments, Asked(p, order, amount))
  {
    hide Sum, OrderShare;
  }

  // A whole refund of the paying payment waits until no live payout holds an order of the checkout.
  lemma StillExcluded(s: State, p: Id, order: Option<Id>, amount: nat)
    requires Excluded(s.orders, s.payments, s.refunds, s.items) && s.next !in s.refunds && MayRefund(s, p, order, amount)
    ensures Excluded(s.orders, s.payments, Refunded(s, Asked(p, order, amount)).refunds, s.items)
  {
    hide Sum, RefundsOrder;
    var refunds := Refunded(s, Asked(p, order, amount)).refunds;
    forall i | i in s.items && s.items[i].Live() && s.items[i].order in s.orders &&
               s.orders[s.items[i].order].checkout.Some?
      ensures !WholeRefund(s.payments, refunds, s.orders[s.items[i].order].checkout.value)
    {
      assert !WholeRefund(s.payments, s.refunds, s.orders[s.items[i].order].checkout.value);
    }
  }

  lemma NewRefundOk(s: State, p: Id, order: Option<Id>, amount: nat)
    requires PaymentsOk(s.checkouts, s.payments) && RefundsOk(s.checkouts, s.orders, s.payments, s.refunds)
    requires MayRefund(s, p, order, amount) && s.next !in s.refunds
    ensures RefundsOk(s.checkouts, s.orders, s.payments, Refunded(s, Asked(p, order, amount)).refunds)
  {
    hide PaymentsOk, AutomaticsOk, BalancesOk, OneLiveRefund, RefundFits, Sum;
    var row := Asked(p, order, amount);
    AskedFits(s, p, order, amount);
    StillOneEach(s.checkouts, s.orders, s.payments, s.refunds, s.next, row);
    StillBalanced(s.payments, s.refunds, s.next, row);
    StillAutomatic(s.payments, s.refunds, s.next, row);
  }

  /** A refund that may be made when it commits keeps the ledger in order. */
  lemma NewRefundKeeps(s: State, p: Id, order: Option<Id>, amount: nat)
    requires Inv(s) && MayRefund(s, p, order, amount)
    ensures var t := Refunded(s, Asked(p, order, amount)); Inv(t) && Evolves(s, t)
  {
    hide Inv, Evolves, PaymentsOk, RefundsOk, Excluded, MayRefund;
    var t := Refunded(s, Asked(p, order, amount));
    RefundTables(s);
    NewRefundOk(s, p, order, amount);
    StillExcluded(s, p, order, amount);
    RefundsKeep(s, t.refunds, t.next);
  }

  lemma RefundStepMay(s: State, p: Id, order: Option<Id>)
    requires RefundStep(s, p, order).Ok? && s.payments[p].checkout in s.checkouts
    ensures var amount := RefundStep(s, p, order).value.refunds[s.next].amount;
            MayRefund(s, p, order, amount) && RefundStep(s, p, order).value == Refunded(s, Asked(p, order, amount))
  {
    hide OrderAmount, Remaining, LiveItemOn, MayRefund;
    var remaining := Remaining(s.payments, s.refunds, p);
    if order.Some? {
      var share := OrderAmount(s, p, order.value).value;
      assert RefundStep(s, p, order).value == Refunded(s, Asked(p, order, share));
      OrderMayRefund(s, p, order.value);
    } else {
      assert RefundStep(s, p, order).value == Refunded(s, Asked(p, None, remaining));
      WholeMayRefund(s, p, remaining);
    }
  }

  lemma OrderMayRefund(s: State, p: Id, o: Id)
    requires p in s.payments && s.payments[p].status.Succeeded? && s.payments[p].checkout in s.checkouts
    requires OrderAmount(s, p, o).Ok? && OrderAmount(s, p, o).value <= Remaining(s.payments, s.refunds, p)
    ensures MayRefund(s, p, Some(o), OrderAmount(s, p, o).value)
  {
    hide Remaining, RefundedOn;
  }

  lemma WholeMayRefund(s: State, p: Id, amount: nat)
    requires p in s.payments && s.payments[p].checkout in s.checkouts && amount <= Remaining(s.payments, s.refunds, p)
    requires s.payments[p].status.Orphaned? ||
             (s.payments[p].status.Succeeded? && !LiveItemOn(s.items, s.orders, s.payments[p].checkout))
    ensures MayRefund(s, p, None, amount)
  {
    hide Remaining, LiveItemOn;
  }

  lemma RefundStepKeeps(s: State, p: Id, order: Option<Id>)
    requires Inv(s) && RefundStep(s, p, order).Ok?
    ensures var t := RefundStep(s, p, order).value; Inv(t) && Evolves(s, t)
  {
    hide Inv, Evolves, PaymentsOk, RefundsOk, Excluded, MayRefund;
    RefundTables(s);
    RefundStepMay(s, p, order);
    NewRefundKeeps(s, p, order, RefundStep(s, p, order).value.refunds[s.next].amount);
  }

  // ----- Settling -----

  lemma SettledBalances(payments: map<Id, Payment>, refunds: map<Id, Refund>, r: Id, status: RefundStatus)
    requires BalancesOk(payments, refunds) && r in refunds && refunds[r].Live()
    ensures BalancesOk(payments, refunds[r := refunds[r].(status := status)])
  {
    var row := refunds[r].(status := status);
    forall p | p in payments
      ensures Sum(refunds[r := row], LiveOn(p)) <= payments[p].charged
    {
      SumUpdate(refunds, LiveOn(p), r, row);
      assert LiveOn(p)(row) <= LiveOn(p)(refunds[r]);
    }
  }

  lemma SettledFits(checkouts: map<Id, Checkout>, orders: map<Id, Order>, payments: map<Id, Payment>, row: Refund,
                    status: RefundStatus)
    requires RefundFits(checkouts, orders, payments, row)
    ensures RefundFits(checkouts, orders, payments, row.(status := status))
  {
  }

  lemma SettledOk(s: State, r: Id, status: RefundStatus)
    requires RefundsOk(s.checkouts, s.orders, s.payments, s.refunds) && r in s.refunds && s.refunds[r].status.Pending?
    ensures RefundsOk(s.checkouts, s.orders, s.payments, s.refunds[r := s.refunds[r].(status := status)])
  {
    hide RefundFits, AutomaticsOk, BalancesOk;
    SettledFits(s.checkouts, s.orders, s.payments, s.refunds[r], status);
    SettledBalances(s.payments, s.refunds, r, status);
    SettledAutomatic(s.payments, s.refunds, r, status);
  }

  lemma SettledAutomatic(payments: map<Id, Payment>, refunds: map<Id, Refund>, r: Id, status: RefundStatus)
    requires AutomaticsOk(payments, refunds) && r in refunds
    ensures AutomaticsOk(payments, refunds[r := refunds[r].(status := status)])
  {
    var refunds' := refunds[r := refunds[r].(status := status)];
    forall p | p in payments && payments[p].status.Orphaned?
      ensures HasAutomatic(refunds', p)
    {
      var q :| q in refunds && refunds[q].payment == p && refunds[q].automatic;
      assert refunds'[q].payment == p && refunds'[q].automatic;
    }
  }

  lemma SettledExcluded(s: State, r: Id, status: RefundStatus)
    requires Excluded(s.orders, s.payments, s.refunds, s.items) && r in s.refunds && s.refunds[r].status.Pending?
    ensures Excluded(s.orders, s.payments, s.refunds[r := s.refunds[r].(status := status)], s.items)
  {
    var refunds := s.refunds[r := s.refunds[r].(status := status)];
    forall i | i in s.items && s.items[i].Live() && s.items[i].order in s.orders &&
               s.orders[s.items[i].order].checkout.Some?
      ensures !WholeRefund(s.payments, refunds, s.orders[s.items[i].order].checkout.value)
    {
      assert !WholeRefund(s.payments, s.refunds, s.orders[s.items[i].order].checkout.value);
    }
  }

  lemma SettleRefundKeeps(s: State, r: Id, processed: bool)
    requires Inv(s) && SettleRefund(s, r, processed).Ok?
    ensures var t := SettleRefund(s, r, processed).value; Inv(t) && Evolves(s, t)
  {
    hide Inv, Evolves, PaymentsOk, RefundsOk, Excluded;
    RefundTables(s);
    EvolvesReflexive(s);
    if s.refunds[r].status.Pending? {
      var status := if processed then Processed else RefundStatus.Failed;
      SettledOk(s, r, status);
      SettledExcluded(s, r, status);
      RefundsKeep(s, s.refunds[r := s.refunds[r].(status := status)], s.next);
    }
  }
}
