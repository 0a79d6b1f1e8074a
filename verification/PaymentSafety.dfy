/** Payments over whole runs: paid exactly once, settled for good, and repeated calls change nothing. */
module PaymentSafety {
  import opened Rows
  import opened Sums
  import Stock
  import Checkouts
  import Money
  import Payments
  import opened Invariants
  import opened Evolution
  import opened Runs
  import PaymentProofs
  import RefundProofs
  import Sourcing
  import SourcingProofs
  import StockProofs

  // ----- Paid exactly once -----

  ghost predicate SoleSuccess(s: State, c: Id, p: Id)
    requires c in s.checkouts
  {
    && p in s.payments && s.payments[p].checkout == c && s.payments[p].status.Succeeded?
    && s.payments[p].amount == s.checkouts[c].total
    && forall q | q in s.payments && s.payments[q].checkout == c && s.payments[q].status.Succeeded? :: q == p
  }

  /** A checkout is PAID exactly when one payment on it succeeded, of its total, and never two. */
  lemma PaidOnce(config: Config, s: State, c: Id)
    requires Reachable(config, s) && c in s.checkouts
    ensures s.checkouts[c].status.Paid? <==> exists p :: SoleSuccess(s, c, p)
  {
    hide Reachable, Inv, SoleSuccess;
    ReachableOk(config, s);
    PaymentProofs.PaymentTables(s);
    PaidOnceOf(s, c);
  }

  lemma PaidOnceOf(s: State, c: Id)
    requires PaymentsOk(s.checkouts, s.payments) && c in s.checkouts
    ensures s.checkouts[c].status.Paid? <==> exists p :: SoleSuccess(s, c, p)
  {
    if s.checkouts[c].status.Paid? {
      assert PaidFor(s.payments, c);
      var p :| p in s.payments && s.payments[p].checkout == c && s.payments[p].status.Succeeded?;
      assert PaymentFits(s.checkouts, s.payments[p]);
      assert SoleSuccess(s, c, p);
    }
    if p :| SoleSuccess(s, c, p) {
      assert PaymentFits(s.checkouts, s.payments[p]);
    }
  }

  /** A checkout has at most one payment in flight, and none once it has expired or been cancelled. */
  lemma OnePending(config: Config, s: State, p: Id, q: Id)
    requires Reachable(config, s) && p in s.payments && q in s.payments
    requires s.payments[p].status.Pending? && s.payments[q].status.Pending?
    requires s.payments[p].checkout == s.payments[q].checkout
    ensures p == q && s.payments[p].checkout in s.checkouts
    ensures !s.checkouts[s.payments[p].checkout].status.Expired? && !s.checkouts[s.payments[p].checkout].status.Cancelled?
  {
    hide Reachable, Inv, PaidFor;
    ReachableOk(config, s);
    PaymentProofs.PaymentTables(s);
    assert PaymentFits(s.checkouts, s.payments[p]);
  }

  /** What has ended stays as it ended, and what an order or payment was for never changes. */
  lemma EndsAreFinal(config: Config, s: State, events: seq<Event>)
    requires Reachable(config, s)
    ensures var t := Run(config, s, events);
            && (forall c | c in s.checkouts && !s.checkouts[c].status.AwaitingPayment? ::
                  c in t.checkouts && t.checkouts[c] == s.checkouts[c])
            && (forall p | p in s.payments && Settled(s.payments[p].status) ::
                  p in t.payments && t.payments[p] == s.payments[p])
  {
    hide Reachable, Inv, Run;
    ReachableOk(config, s);
    RunKeeps(config, s, events);
  }

  // ----- A checkout and its orders -----

  /** A checkout's status tells whether its orders are unpaid, paid for, or cancelled. */
  lemma OrdersFollowCheckout(config: Config, s: State, o: Id)
    requires Reachable(config, s) && o in s.orders && s.orders[o].checkout.Some?
    ensures s.orders[o].checkout.value in s.checkouts
    ensures match s.checkouts[s.orders[o].checkout.value].status
            case AwaitingPayment => s.orders[o].status.AwaitingPayment?
            case Paid => !s.orders[o].status.AwaitingPayment?
            case Expired => s.orders[o].status.Cancelled?
            case Cancelled => s.orders[o].status.Cancelled?
  {
    hide Reachable, Inv;
    ReachableOk(config, s);
    CheckoutTables(s);
    assert OrderFits(s.checkouts, s.orders[o]);
  }

  lemma CheckoutTables(s: State)
    requires Inv(s)
    ensures CheckoutsOk(s.checkouts, s.orders)
  {
    hide Stock.StockOk, CheckoutsOk, HandoversOk, ReadsOk, PaymentsOk, RefundsOk, PayoutsOk, Excluded, RequestRefs;
    hide SyncedBut, CartsOk;
  }

  ghost function PlacedOn(listing: Id, c: Id): Order -> int {
    (order: Order) => if order.listing == listing && order.checkout == Some(c) then order.quantity else 0
  }

  lemma AllUnpaid(checkouts: map<Id, Checkout>, orders: map<Id, Order>, c: Id, l: Id)
    requires CheckoutsOk(checkouts, orders) && c in checkouts && checkouts[c].status.AwaitingPayment?
    ensures Sum(orders, PlacedOn(l, c)) == Sum(orders, Checkouts.ReleasedOn(l, c))
  {
    forall o | o in orders
      ensures PlacedOn(l, c)(orders[o]) == Checkouts.ReleasedOn(l, c)(orders[o])
    {
      assert OrderFits(checkouts, orders[o]);
    }
    SumSame(orders, PlacedOn(l, c), orders, Checkouts.ReleasedOn(l, c));
  }

  lemma ReturnedRow(listings: map<Id, Listing>, orders: map<Id, Order>, c: Id, l: Id)
    requires l in listings
    ensures var row := Checkouts.Returned(listings, orders, c)[l];
            row.floating == listings[l].floating + Sum(orders, Checkouts.ReleasedOn(l, c)) &&
            row.actual == listings[l].actual
  {
    hide Stock.DeriveStatus;
    if !Checkouts.HoldsUnpaid(orders, l, c) {
      StockProofs.NothingReleased(orders, c, l);
    }
  }

  /** Ending an unpaid checkout gives every listing back exactly what its orders had reserved there. */
  lemma ReleaseGivesBack(s: State, c: Id, status: CheckoutStatus, l: Id)
    requires Inv(s) && c in s.checkouts && s.checkouts[c].status.AwaitingPayment? && l in s.listings
    ensures var row := Checkouts.Release(s, c, status).listings[l];
            row.floating == s.listings[l].floating + Sum(s.orders, PlacedOn(l, c)) && row.actual == s.listings[l].actual
  {
    hide Inv, Checkouts.Returned, Checkouts.WithOrders, Checkouts.WithoutPending, CheckoutsOk;
    hide PlacedOn, Checkouts.ReleasedOn;
    CheckoutTables(s);
    AllUnpaid(s.checkouts, s.orders, c, l);
    ReturnedRow(s.listings, s.orders, c, l);
  }

  // ----- The fate of a charge -----

  ghost predicate ReturnedOnce(refunds: map<Id, Rows.Refund>, p: Id, amount: nat) {
    exists r :: SoleReturn(refunds, p, amount, r)
  }

  ghost predicate SoleReturn(refunds: map<Id, Rows.Refund>, p: Id, amount: nat, r: Id) {
    && r in refunds && refunds[r].payment == p && refunds[r].automatic && refunds[r].amount == amount
    && forall q | q in refunds && refunds[q].payment == p && refunds[q].automatic :: q == r
  }

  lemma OrphansReturned(s: State, p: Id)
    requires Inv(s) && p in s.payments && s.payments[p].status.Orphaned?
    ensures ReturnedOnce(s.refunds, p, s.payments[p].charged)
  {
    hide InvBut, PaymentsOk, Excluded, OneLiveRefund, BalancesOk;
    RefundProofs.RefundTables(s);
    assert HasAutomatic(s.refunds, p);
    var r :| r in s.refunds && s.refunds[r].payment == p && s.refunds[r].automatic;
    assert RefundFits(s.checkouts, s.orders, s.payments, s.refunds[r]);
    assert SoleReturn(s.refunds, p, s.payments[p].charged, r);
  }

  lemma PaymentHasCheckout(s: State, p: Id)
    requires Inv(s) && p in s.payments
    ensures s.payments[p].checkout in s.checkouts
  {
    hide Inv, PaidFor;
    PaymentProofs.PaymentTables(s);
    assert PaymentFits(s.checkouts, s.payments[p]);
  }

  lemma SettledNow(s: State, p: Id, r: Option<Id>)
    requires p in s.payments && s.payments[p].checkout in s.checkouts
    ensures Sourcing.Sync(Payments.Settle(s, p), r).payments
            == s.payments[p := s.payments[p].(status := PaymentStatus.Succeeded)]
    ensures Payments.SendBack(s, p).payments == s.payments[p := s.payments[p].(status := PaymentStatus.Orphaned)]
  {
    hide Sourcing.Sync, Checkouts.WithOrders;
    SourcingProofs.SyncTouchesStatusOnly(Payments.Settle(s, p), r);
  }

  /** A verified charge of exactly the money an unpaid checkout was waiting for, in its currency. */
  predicate Pays(s: State, charge: Payments.Charge) {
    && charge.payment in s.payments && s.payments[charge.payment].checkout in s.checkouts
    && var payment := s.payments[charge.payment];
    && !Settled(payment.status) && s.checkouts[payment.checkout].status.AwaitingPayment?
    && charge.outcome.Success? && charge.currency == Some(payment.currency) && charge.amount == payment.charged
  }

  // A success settles the payment at once, whatever became of the checkout meanwhile.
  lemma SuccessSettles(s: State, charge: Payments.Charge)
    requires charge.payment in s.payments && s.payments[charge.payment].checkout in s.checkouts && charge.outcome.Success?
    ensures Payments.ApplyCharge(s, charge).Ok?
    ensures var t := Payments.ApplyCharge(s, charge).value;
            && charge.payment in t.payments && Settled(t.payments[charge.payment].status)
            && (t.payments[charge.payment].status.Succeeded? <==>
                  s.payments[charge.payment].status.Succeeded? || Pays(s, charge))
  {
    hide Sourcing.Sync, Payments.Settle, Payments.SendBack;
    SettledNow(s, charge.payment, s.checkouts[s.payments[charge.payment].checkout].request);
  }

  /**
   * Every known payment whose charge the provider ever reports successful is settled from then on, for
   * good: SUCCEEDED if its checkout was waiting for exactly that money, and otherwise ORPHANED, with one
   * automatic refund of the whole charge and no second one.
   */
  lemma FateOfCharge(config: Config, s: State, charge: Payments.Charge, events: seq<Event>)
    requires Reachable(config, s) && charge.payment in s.payments && charge.outcome.Success?
    ensures var p := charge.payment;
            var t := Run(config, After(config, s, Money(Charged(charge))), events);
            && p in t.payments && Settled(t.payments[p].status)
            && (t.payments[p].status.Succeeded? <==>
                  s.payments[p].status.Succeeded? || Pays(s, charge))
            && (t.payments[p].status.Orphaned? ==> ReturnedOnce(t.refunds, p, t.payments[p].charged))
  {
    hide Reachable, Inv, Run, Payments.ApplyCharge, Pays, ReturnedOnce, Evolves;
    var e := Money(Charged(charge));
    var t := After(config, s, e);
    var u := Run(config, t, events);
    ReachableOk(config, s);
    PaymentHasCheckout(s, charge.payment);
    SuccessSettles(s, charge);
    StepKeeps(config, s, e);
    RunKeeps(config, t, events);
    SettledStays(t, u, charge.payment);
    if u.payments[charge.payment].status.Orphaned? {
      OrphansReturned(u, charge.payment);
    }
  }

  lemma SettledStays(s: State, t: State, p: Id)
    requires Evolves(s, t) && p in s.payments && Settled(s.payments[p].status)
    ensures p in t.payments && t.payments[p] == s.payments[p]
  {
  }

  // ----- What an attempt charges -----

  /**
   * A new attempt takes over from the one in flight, and charges the checkout's total: in naira exactly
   * that, in dollars an amount no smaller whole number of cents would cover at the rate used.
   */
  lemma AttemptCharges(config: Config, s: State, c: Id, buyer: Id, key: Id, currency: Currency, rate: Option<nat>,
                       now: int, cents: nat)
    requires Reachable(config, s) && !Payments.HasAttempt(s.payments, c, key)
    requires Payments.Initiate(s, c, buyer, key, currency, rate, now).Ok?
    ensures var t := Payments.Initiate(s, c, buyer, key, currency, rate, now).value;
            && c in s.checkouts && s.next !in s.payments && s.next in t.payments
            && var payment := t.payments[s.next];
            && payment.checkout == c && payment.key == key && payment.currency == currency
            && payment.amount == s.checkouts[c].total
            && (currency.Ngn? ==> payment.charged == payment.amount)
            && (currency.Usd? ==> rate.Some?)
            && (currency.Usd? ==> (payment.charged <= cents <==> payment.amount * Money.MILLION <= cents * rate.value))
            && (forall p | p in t.payments && t.payments[p].checkout == c :: t.payments[p].status.Pending? <==> p == s.next)
            && (forall p | p in s.payments && s.payments[p].checkout != c ::
                  p in t.payments && t.payments[p] == s.payments[p])
  {
    hide Reachable, Inv, PaymentsOk, Payments.HasAttempt, Money.NgnToUsd;
    ReachableOk(config, s);
    PaymentProofs.PaymentTables(s);
    if currency.Usd? {
      Money.DollarChargeIsLeast(s.checkouts[c].total, rate.value, cents);
    }
  }
}
