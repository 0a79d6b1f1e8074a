/** What payment attempts and verified charges keep. */
module PaymentProofs {
  import opened Rows
  import opened Sums
  import opened Money
  import Stock
  import StockProofs
  import opened Sourcing
  import opened Checkouts
  import opened Payments
  import opened Refunds
  import opened Payouts
  import opened Invariants
  import opened Evolution
  import opened SourcingProofs
  import opened CheckoutProofs
  import RefundProofs

  // A change of payments alone that orphans nothing.
  lemma PaymentsKeep(s: State, payments: map<Id, Payment>, next: Id)
    requires Inv(s) && PaymentsOk(s.checkouts, payments) && PaymentsEvolve(s.payments, payments)
    requires NoNewOrphan(s.payments, payments) && next >= s.next
    requires forall p | p in payments :: p < next
    ensures var t := s.(payments := payments, next := next); Inv(t) && Evolves(s, t)
  {
    hide Stock.StockOk, CheckoutsOk, HandoversOk, ReadsOk, PaymentsOk, RefundsOk, PayoutsOk, Excluded, RequestRefs;
    hide SyncedBut, CartsOk, NoNewOrphan;
    hide OrdersEvolve, CheckoutsEvolve, PaymentsEvolve, RefundsEvolve, PayoutsEvolve, ItemsEvolve, RequestsEvolve;
    EvolvesReflexive(s);
    var t := s.(payments := payments, next := next);
    ReadsKept(s.orderReads, s.orders, t.orders, s.next, t.next);
    MoneyKept(s, t);
  }

  lemma PaymentTables(s: State)
    requires Inv(s)
    ensures PaymentsOk(s.checkouts, s.payments) && (forall p | p in s.payments :: p < s.next)
    ensures forall c | c in s.checkouts :: s.checkouts[c].total > 0
  {
    hide Stock.StockOk, HandoversOk, ReadsOk, PaymentsOk, RefundsOk, PayoutsOk, Excluded, RequestRefs;
    hide SyncedBut, CartsOk, OrderFits;
  }

  lemma AbandonedFits(checkouts: map<Id, Checkout>, payments: map<Id, Payment>, c: Id)
    requires forall p | p in payments :: PaymentFits(checkouts, payments[p])
    ensures forall p | p in payments :: PaymentFits(checkouts, WithoutPending(payments, c)[p])
  {
    forall p | p in payments
      ensures PaymentFits(checkouts, WithoutPending(payments, c)[p])
    {
      assert PaymentFits(checkouts, payments[p]);
    }
  }

  // Adding a pending row after abandoning the others leaves exactly one.
  lemma AttemptOk(checkouts: map<Id, Checkout>, payments: map<Id, Payment>, p: Id, row: Payment)
    requires PaymentsOk(checkouts, payments) && p !in payments
    requires PaymentFits(checkouts, row) && row.status.Pending? && !HasAttempt(payments, row.checkout, row.key)
    ensures PaymentsOk(checkouts, WithoutPending(payments, row.checkout)[p := row])
  {
    hide PaymentFits, PaidFor;
    AbandonedFits(checkouts, payments, row.checkout);
    forall d | d in checkouts && checkouts[d].status.Paid? {
      PaidForKept(payments, WithoutPending(payments, row.checkout)[p := row], d);
    }
  }

  lemma AttemptEvolves(payments: map<Id, Payment>, p: Id, row: Payment)
    requires p !in payments && !row.status.Orphaned?
    ensures PaymentsEvolve(payments, WithoutPending(payments, row.checkout)[p := row])
    ensures NoNewOrphan(payments, WithoutPending(payments, row.checkout)[p := row])
  {
  }

  lemma ChargePositive(total: nat, rate: nat)
    requires total > 0 && rate > 0
    ensures NgnToUsd(total, rate) > 0
  {
  }

  lemma InitiateKeeps(s: State, c: Id, buyer: Id, key: Id, currency: Currency, rate: Option<nat>, now: int)
    requires Inv(s) && Initiate(s, c, buyer, key, currency, rate, now).Ok?
    ensures var t := Initiate(s, c, buyer, key, currency, rate, now).value; Inv(t) && Evolves(s, t)
  {
    hide Inv, Evolves, PaymentsOk, WithoutPending, NoNewOrphan, PaymentsEvolve, NgnToUsd, HasAttempt;
    PaymentTables(s);
    EvolvesReflexive(s);
    if !HasAttempt(s.payments, c, key) {
      var t := Initiate(s, c, buyer, key, currency, rate, now).value;
      var row := t.payments[s.next];
      if currency.Usd? {
        ChargePositive(s.checkouts[c].total, rate.value);
      }
      AttemptOk(s.checkouts, s.payments, s.next, row);
      AttemptEvolves(s.payments, s.next, row);
      WithoutPendingKeys(s.payments, c);
      PaymentsKeep(s, t.payments, t.next);
    }
  }

  lemma WithoutPendingKeys(payments: map<Id, Payment>, c: Id)
    ensures WithoutPending(payments, c).Keys == payments.Keys
  {
  }

  // ----- Attempts that fail, and money that cannot be applied -----

  lemma SidelinedFits(checkouts: map<Id, Checkout>, row: Payment, status: PaymentStatus)
    requires PaymentFits(checkouts, row) && (status.Failed? || status.Orphaned?)
    ensures PaymentFits(checkouts, row.(status := status))
  {
  }

  lemma SidelinedOk(checkouts: map<Id, Checkout>, payments: map<Id, Payment>, p: Id, status: PaymentStatus)
    requires PaymentsOk(checkouts, payments) && p in payments && Applicable(payments[p].status)
    requires status.Failed? || status.Orphaned?
    ensures PaymentsOk(checkouts, payments[p := payments[p].(status := status)])
    ensures PaymentsEvolve(payments, payments[p := payments[p].(status := status)])
  {
    hide PaymentFits, PaidFor;
    SidelinedFits(checkouts, payments[p], status);
    forall d | d in checkouts && checkouts[d].status.Paid? {
      PaidForKept(payments, payments[p := payments[p].(status := status)], d);
    }
  }

  lemma FailKeeps(s: State, p: Id)
    requires Inv(s) && p in s.payments
    ensures Inv(FailPending(s, p)) && Evolves(s, FailPending(s, p))
  {
    hide Inv, Evolves, PaymentsOk, NoNewOrphan, PaymentsEvolve;
    EvolvesReflexive(s);
    if s.payments[p].status.Pending? {
      PaymentTables(s);
      SidelinedOk(s.checkouts, s.payments, p, PaymentStatus.Failed);
      NoneOrphaned(s.payments, p);
      PaymentsKeep(s, s.payments[p := s.payments[p].(status := PaymentStatus.Failed)], s.next);
    }
  }

  lemma NoneOrphaned(payments: map<Id, Payment>, p: Id)
    requires p in payments
    ensures NoNewOrphan(payments, payments[p := payments[p].(status := PaymentStatus.Failed)])
  {
  }

  lemma OpenFailedKeeps(s: State, p: Id)
    requires Inv(s) && OpenFailed(s, p).Ok?
    ensures var t := OpenFailed(s, p).value; Inv(t) && Evolves(s, t)
  {
    hide Inv, Evolves, FailPending;
    FailKeeps(s, p);
  }

  // A payment that could still be applied has never been refunded.
  lemma Unrefunded(checkouts: map<Id, Checkout>, orders: map<Id, Order>, payments: map<Id, Payment>,
                   refunds: map<Id, Refund>, p: Id)
    requires forall r | r in refunds :: RefundFits(checkouts, orders, payments, refunds[r])
    requires p in payments && Applicable(payments[p].status)
    ensures forall r | r in refunds :: refunds[r].payment != p
    ensures Sum(refunds, LiveOn(p)) == 0
  {
    forall r | r in refunds
      ensures refunds[r].payment != p
    {
      assert RefundFits(checkouts, orders, payments, refunds[r]);
    }
    SumZero(refunds, LiveOn(p));
  }

  lemma OrphanBalances(payments: map<Id, Payment>, refunds: map<Id, Refund>, p: Id, r: Id, row: Refund)
    requires BalancesOk(payments, refunds) && p in payments && r !in refunds && Sum(refunds, LiveOn(p)) == 0
    requires row.payment == p && row.amount == payments[p].charged
    ensures BalancesOk(payments[p := payments[p].(status := PaymentStatus.Orphaned)], refunds[r := row])
  {
    forall q | q in payments
      ensures Sum(refunds[r := row], LiveOn(q)) <= payments[q].charged
    {
      SumInsert(refunds, LiveOn(q), r, row);
    }
  }

  lemma OrphanAutomatics(payments: map<Id, Payment>, refunds: map<Id, Refund>, p: Id, r: Id, row: Refund)
    requires AutomaticsOk(payments, refunds) && p in payments && r !in refunds
    requires forall q | q in refunds :: refunds[q].payment != p
    requires row.payment == p && row.automatic
    ensures AutomaticsOk(payments[p := payments[p].(status := PaymentStatus.Orphaned)], refunds[r := row])
  {
    var payments', refunds' := payments[p := payments[p].(status := PaymentStatus.Orphaned)], refunds[r := row];
    forall q | q in payments' && payments'[q].status.Orphaned?
      ensures HasAutomatic(refunds', q)
    {
      if q == p {
        assert refunds'[r].payment == q;
      } else {
        var r' :| r' in refunds && refunds[r'].payment == q && refunds[r'].automatic;
        assert refunds'[r'] == refunds[r'];
      }
    }
  }

  lemma OrphanFits(checkouts: map<Id, Checkout>, orders: map<Id, Order>, payments: map<Id, Payment>, row: Refund, p: Id)
    requires RefundFits(checkouts, orders, payments, row) && p in payments && row.payment != p
    ensures RefundFits(checkouts, orders, payments[p := payments[p].(status := PaymentStatus.Orphaned)], row)
  {
  }

  lemma OrphanRefunds(checkouts: map<Id, Checkout>, orders: map<Id, Order>, payments: map<Id, Payment>,
                      refunds: map<Id, Refund>, p: Id, r: Id)
    requires RefundsOk(checkouts, orders, payments, refunds)
    requires p in payments && Applicable(payments[p].status) && payments[p].checkout in checkouts && r !in refunds
    ensures RefundsOk(checkouts, orders, payments[p := payments[p].(status := PaymentStatus.Orphaned)],
                      refunds[r := Refund(p, None, payments[p].charged, RefundStatus.Pending, true)])
  {
    hide AutomaticsOk, BalancesOk, RefundFits;
    var row := Refund(p, None, payments[p].charged, RefundStatus.Pending, true);
    var payments' := payments[p := payments[p].(status := PaymentStatus.Orphaned)];
    Unrefunded(checkouts, orders, payments, refunds, p);
    OrphanBalances(payments, refunds, p, r, row);
    OrphanAutomatics(payments, refunds, p, r, row);
    forall q | q in refunds {
      OrphanFits(checkouts, orders, payments, refunds[q], p);
    }
    AutomaticFits(checkouts, orders, payments', row);
  }

  lemma AutomaticFits(checkouts: map<Id, Checkout>, orders: map<Id, Order>, payments: map<Id, Payment>, row: Refund)
    requires row.payment in payments && payments[row.payment].status.Orphaned?
    requires payments[row.payment].checkout in checkouts && row.order.None? && row.amount == payments[row.payment].charged
    ensures RefundFits(checkouts, orders, payments, row)
  {
  }

  // A refund of a payment that never succeeded is no whole refund of its checkout.
  lemma OrphanExclusion(orders: map<Id, Order>, payments: map<Id, Payment>, refunds: map<Id, Refund>,
                        items: map<(Id, Id), Item>, p: Id, r: Id, row: Refund)
    requires Excluded(orders, payments, refunds, items) && p in payments && r !in refunds && row.payment == p
    requires !payments[p].status.Succeeded?
    ensures Excluded(orders, payments[p := payments[p].(status := PaymentStatus.Orphaned)], refunds[r := row], items)
  {
  }

  lemma OrphanFresh(s: State, payments: map<Id, Payment>, row: Refund)
    requires FreshOk(s) && payments.Keys == s.payments.Keys
    ensures FreshOk(s.(payments := payments, refunds := s.refunds[s.next := row], next := s.next + 1))
    ensures s.next !in s.refunds
  {
  }

  /** Orphaning a payment together with its refund keeps every balance, and every farmer's claim, in order. */
  lemma OrphanKeeps(s: State, p: Id)
    requires Inv(s) && p in s.payments && Applicable(s.payments[p].status) && s.payments[p].checkout in s.checkouts
    ensures Inv(SendBack(s, p)) && Evolves(s, SendBack(s, p))
  {
    hide Stock.StockOk, CheckoutsOk, HandoversOk, ReadsOk, PaymentsOk, RefundsOk, PayoutsOk, Excluded, RequestRefs;
    hide SyncedBut, CartsOk, FreshOk;
    hide OrdersEvolve, CheckoutsEvolve, PaymentsEvolve, PayoutsEvolve, ItemsEvolve, RequestsEvolve;
    EvolvesReflexive(s);
    var row := Refund(p, None, s.payments[p].charged, RefundStatus.Pending, true);
    var payments := s.payments[p := s.payments[p].(status := PaymentStatus.Orphaned)];
    OrphanFresh(s, payments, row);
    ReadsKept(s.orderReads, s.orders, s.orders, s.next, s.next + 1);
    SidelinedOk(s.checkouts, s.payments, p, PaymentStatus.Orphaned);
    OrphanRefunds(s.checkouts, s.orders, s.payments, s.refunds, p, s.next);
    OrphanExclusion(s.orders, s.payments, s.refunds, s.items, p, s.next, row);
  }

  // The refund takes the whole balance, and nobody else's balance moves.
  lemma OrphanBalance(s: State, p: Id)
    requires Inv(s) && p in s.payments && Applicable(s.payments[p].status)
    ensures var t := SendBack(s, p);
            && p in t.payments && Remaining(t.payments, t.refunds, p) == 0
            && forall q | q in s.payments && q != p ::
                 q in t.payments && Remaining(t.payments, t.refunds, q) == Remaining(s.payments, s.refunds, q)
  {
    hide InvBut, PaymentsOk, Excluded, OneLiveRefund, BalancesOk, AutomaticsOk, RefundFits;
    RefundProofs.RefundTables(s);
    Unrefunded(s.checkouts, s.orders, s.payments, s.refunds, p);
    var row := Rows.Refund.Refund(p, None, s.payments[p].charged, RefundStatus.Pending, true);
    NextRefund(s);
    forall q | q in s.payments
      ensures Sum(s.refunds[s.next := row], LiveOn(q)) == Sum(s.refunds, LiveOn(q)) + LiveOn(q)(row)
    {
      SumInsert(s.refunds, LiveOn(q), s.next, row);
    }
  }

  lemma NextRefund(s: State)
    requires Inv(s)
    ensures s.next !in s.refunds
  {
    hide Stock.StockOk, CheckoutsOk, HandoversOk, ReadsOk, PaymentsOk, RefundsOk, PayoutsOk, Excluded, RequestRefs;
    hide SyncedBut, CartsOk;
  }

  // ----- Money the checkout was waiting for -----

  lemma PaidPayments(checkouts: map<Id, Checkout>, payments: map<Id, Payment>, p: Id)
    requires PaymentsOk(checkouts, payments) && p in payments && Applicable(payments[p].status)
    requires payments[p].checkout in checkouts && checkouts[payments[p].checkout].status.AwaitingPayment?
    ensures var c := payments[p].checkout;
            PaymentsOk(checkouts[c := checkouts[c].(status := CheckoutStatus.Paid)],
                       payments[p := payments[p].(status := PaymentStatus.Succeeded)])
  {
    hide PaidFor;
    var c := payments[p].checkout;
    var checkouts' := checkouts[c := checkouts[c].(status := CheckoutStatus.Paid)];
    var payments' := payments[p := payments[p].(status := PaymentStatus.Succeeded)];
    forall q | q in payments'
      ensures PaymentFits(checkouts', payments'[q])
    {
      assert PaymentFits(checkouts, payments[q]);
    }
    PaidForNow(payments', p);
    forall d | d in checkouts && checkouts[d].status.Paid? {
      PaidForKept(payments, payments', d);
    }
  }

  lemma PaidForNow(payments: map<Id, Payment>, p: Id)
    requires p in payments && payments[p].status.Succeeded?
    ensures PaidFor(payments, payments[p].checkout)
  {
  }

  lemma PaidEvolves(payments: map<Id, Payment>, p: Id)
    requires p in payments && Applicable(payments[p].status)
    ensures PaymentsEvolve(payments, payments[p := payments[p].(status := PaymentStatus.Succeeded)])
    ensures NoNewOrphan(payments, payments[p := payments[p].(status := PaymentStatus.Succeeded)])
  {
  }

  lemma PaidStock(listings: map<Id, Listing>, orders: map<Id, Order>, c: Id)
    requires Stock.StockOk(listings, orders)
    ensures Stock.StockOk(listings, WithOrders(orders, c, OrderStatus.Pending))
  {
    StockProofs.RelabelKeepsStock(listings, orders, WithOrders(orders, c, OrderStatus.Pending));
  }

  lemma PaidListings(s: State, p: Id)
    requires p in s.payments && s.payments[p].checkout in s.checkouts
    ensures Settle(s, p).listings == s.listings && Settle(s, p).requests == s.requests
  {
    hide WithOrders;
  }

  lemma PaidKeeps(s: State, p: Id)
    requires Inv(s) && p in s.payments && Applicable(s.payments[p].status) && s.payments[p].checkout in s.checkouts
    requires s.checkouts[s.payments[p].checkout].status.AwaitingPayment?
    ensures InvBut(s.checkouts[s.payments[p].checkout].request, Settle(s, p)) && RowsEvolve(s, Settle(s, p))
  {
    hide Stock.StockOk, CheckoutsOk, HandoversOk, ReadsOk, PaymentsOk, RefundsOk, PayoutsOk, Excluded, RequestRefs;
    hide SyncedBut, CartsOk, OrdersEvolve, PaymentsEvolve, CheckoutsEvolve, WithOrders, NoNewOrphan;
    var t := Settle(s, p);
    var c := s.payments[p].checkout;
    WithOrdersKeys(s.orders, c);
    PaidStock(s.listings, s.orders, c);
    EndedCheckouts(s.checkouts, s.orders, c, CheckoutStatus.Paid, OrderStatus.Pending);
    WithOrdersEvolves(s.orders, s.clusters, c, OrderStatus.Pending, s.next);
    StatusEvolves(s.checkouts, c, CheckoutStatus.Paid);
    PaidPayments(s.checkouts, s.payments, p);
    PaidEvolves(s.payments, p);
    EndedRequests(s.requests, s.checkouts, s.orders, c, CheckoutStatus.Paid, OrderStatus.Pending);
    ReadsKept(s.orderReads, s.orders, t.orders, s.next, s.next);
    MoneyKept(s, t);
  }

  lemma WithOrdersKeys(orders: map<Id, Order>, c: Id)
    ensures WithOrders(orders, c, OrderStatus.Pending).Keys == orders.Keys
  {
  }

  lemma ApplyChargeKeeps(s: State, charge: Charge)
    requires Inv(s) && ApplyCharge(s, charge).Ok?
    ensures var t := ApplyCharge(s, charge).value; Inv(t) && Evolves(s, t)
  {
    hide InvBut, RowsEvolve, RequestsEvolve, Sync, Settle, SendBack, FailPending;
    EvolvesReflexive(s);
    var p := charge.payment;
    var payment := s.payments[p];
    if Applicable(payment.status) {
      if !charge.outcome.Success? {
        FailKeeps(s, p);
      } else if Orphan(payment, s.checkouts[payment.checkout], charge) {
        OrphanKeeps(s, p);
      } else {
        PaidKeeps(s, p);
        PaidListings(s, p);
        Commits(s, Settle(s, p), s.checkouts[payment.checkout].request);
      }
    }
  }
}
