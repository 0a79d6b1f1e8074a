/**
 * The statuses of checkouts, payments and refunds after any event, by what can be seen in the rows before
 * it: every move they make and no other.
 */
module PaymentMoves {
  import opened Rows
  import opened Sourcing
  import SourcingProofs
  import Checkouts
  import Payments
  import Refunds
  import opened Invariants
  import opened Evolution
  import opened Runs
  import opened Frames
  import opened PaymentSafety
  import RequestStatus
  import Placement
  import Loops
  import opened Money
  import PaymentProofs
  import Solvency

  // ----- What ends or pays for a checkout -----

  /** The event is a verified charge that pays for checkout `c`. */
  predicate PaysFor(s: State, e: Event, c: Id) {
    && e.Money? && e.money.Charged? && Pays(s, e.money.charge)
    && s.payments[e.money.charge.payment].checkout == c
  }

  /** The event is the buyer's cancellation of unpaid checkout `c`, or the closing of the request it serves. */
  predicate Withdraws(s: State, e: Event, c: Id) {
    && c in s.checkouts && s.checkouts[c].status.AwaitingPayment? && e.Shop?
    && match e.shop
       case CancelCheckout(d, buyer) => d == c && buyer == s.checkouts[c].buyer
       case CloseRequest(r) => s.checkouts[c].request == Some(r) && r in s.requests && !s.requests[r].closed
       case _ => false
  }

  /** The event expires unpaid checkout `c`, whose time is up. */
  predicate Expires(s: State, e: Event, c: Id) {
    && c in s.checkouts && s.checkouts[c].status.AwaitingPayment?
    && e.Shop? && e.shop.Expire? && e.shop.checkout == c && s.checkouts[c].expiresAt < e.shop.now
  }

  /** Where an event leaves the status of a checkout. */
  function CheckoutAfter(s: State, e: Event, c: Id): CheckoutStatus
    requires c in s.checkouts
  {
    if PaysFor(s, e, c) then CheckoutStatus.Paid
    else if Withdraws(s, e, c) then CheckoutStatus.Cancelled
    else if Expires(s, e, c) then Expired
    else s.checkouts[c].status
  }

  lemma AfterPlacing(config: Config, s: State, e: ShopEvent, c: Id)
    requires Inv(s) && Placing(e) && ApplyShop(config, s, e).Ok? && c in s.checkouts
    ensures var t := ApplyShop(config, s, e).value; c in t.checkouts && t.checkouts[c] == s.checkouts[c]
  {
    hide Inv, ApplyShop, Placement.Fresh, Placement.BuyerOf, Placement.LinesOf, Checkouts.Place;
    hide Placement.CheckoutOfLines, Placement.OrderOfLine;
    if Placement.Fresh(s, e) {
      Placement.PlacingIsPlace(config, s, e);
      Placement.FreshIds(s);
      Placement.PlaceMakes(s, config, e.draft.(buyer := Placement.BuyerOf(s, e)), Placement.LinesOf(s, e),
                           Placement.RequestFor(e), e.now, Placement.LostTo(s, e));
    } else {
      Placement.StalePlacesNothing(config, s, e);
    }
  }

  // How an ending leaves checkouts and payments.
  predicate EndsAs(s: State, t: State, c: Id, status: CheckoutStatus)
    requires c in s.checkouts
  {
    && t.checkouts == s.checkouts[c := s.checkouts[c].(status := status)]
    && t.payments == Checkouts.WithoutPending(s.payments, c)
    && t.orders == Checkouts.WithOrders(s.orders, c, OrderStatus.Cancelled)
  }

  lemma ReleaseEnds(s: State, c: Id, status: CheckoutStatus, r: Option<Id>)
    requires c in s.checkouts
    ensures EndsAs(s, Sync(Checkouts.Release(s, c, status), r), c, status)
  {
    hide Sync, Checkouts.Returned, Checkouts.WithOrders, Checkouts.WithoutPending;
    SourcingProofs.SyncTouchesStatusOnly(Checkouts.Release(s, c, status), r);
  }

  // A closing withdraws the unpaid checkout that serves the request, if one does.
  lemma CloseEnds(s: State, r: Id, c: Id)
    requires Inv(s) && Checkouts.CloseRequest(s, r).Ok? && c in s.checkouts && Checkouts.AwaitingFor(s.checkouts[c], r)
    ensures EndsAs(s, Checkouts.CloseRequest(s, r).value, c, CheckoutStatus.Cancelled)
  {
    hide Inv, Sync, Checkouts.Release, EndsAs;
    var closed := s.(requests := s.requests[r := s.requests[r].(closed := true)]);
    Loops.ClosesOver(s, r, c);
    ReleaseEnds(closed, c, CheckoutStatus.Cancelled, Some(r));
    EndsAsWell(closed, s, Checkouts.CloseRequest(s, r).value, c);
  }

  lemma EndsAsWell(s: State, s': State, t: State, c: Id)
    requires c in s.checkouts && EndsAs(s, t, c, CheckoutStatus.Cancelled) && s == s'.(requests := s.requests)
    ensures EndsAs(s', t, c, CheckoutStatus.Cancelled)
  {
  }

  lemma CloseEndsNothing(s: State, r: Id)
    requires Checkouts.CloseRequest(s, r).Ok? && forall c | c in s.checkouts :: !Checkouts.AwaitingFor(s.checkouts[c], r)
    ensures var t := Checkouts.CloseRequest(s, r).value; SameSales(s, t) && t.payments == s.payments
  {
    hide Sync, Checkouts.Release;
    SourcingProofs.SyncTouchesStatusOnly(s.(requests := s.requests[r := s.requests[r].(closed := true)]), Some(r));
  }

  // What an ending that goes through ends is what its rows say it withdraws or expires, and nothing else.
  lemma EndingIs(config: Config, s: State, e: ShopEvent, c: Id)
    requires Reachable(config, s) && Ending(e) && c in s.checkouts
    requires Withdraws(s, Shop(e), c) || Expires(s, Shop(e), c)
    ensures EndsAs(s, After(config, s, Shop(e)), c, if e.Expire? then Expired else CheckoutStatus.Cancelled)
  {
    hide Reachable, Inv, Sync, Checkouts.Release, EndsAs, Checkouts.CloseRequest;
    match e
    case CancelCheckout(_, _) => ReleaseEnds(s, c, CheckoutStatus.Cancelled, s.checkouts[c].request);
    case Expire(_, _) => ReleaseEnds(s, c, Expired, s.checkouts[c].request);
    case CloseRequest(r) =>
      ReachableOk(config, s);
      ClosingGoesThrough(config, s, r, c);
      CloseEnds(s, r, c);
  }

  lemma ClosingGoesThrough(config: Config, s: State, r: Id, c: Id)
    requires Reachable(config, s) && r in s.requests && !s.requests[r].closed
    requires c in s.checkouts && s.checkouts[c].request == Some(r) && s.checkouts[c].status.AwaitingPayment?
    ensures Checkouts.CloseRequest(s, r).Ok?
  {
    hide Reachable, Checkouts.CloseRequest;
    RequestStatus.SoleServes(config, s, r, c);
    RequestStatus.CloseIff(config, s, r);
  }

  lemma EndingNothing(config: Config, s: State, e: ShopEvent)
    requires Reachable(config, s) && Ending(e)
    requires forall c | c in s.checkouts :: !Withdraws(s, Shop(e), c) && !Expires(s, Shop(e), c)
    ensures var t := After(config, s, Shop(e)); SameSales(s, t) && t.payments == s.payments
  {
    hide Reachable, Sync, Checkouts.Release, Checkouts.CloseRequest;
    match e
    case CancelCheckout(c, buyer) => assert c in s.checkouts ==> !Withdraws(s, Shop(e), c);
    case Expire(c, now) => assert c in s.checkouts ==> !Expires(s, Shop(e), c);
    case CloseRequest(r) =>
      if Checkouts.CloseRequest(s, r).Ok? {
        RequestStatus.CloseIff(config, s, r);
        forall c | c in s.checkouts
          ensures !Checkouts.AwaitingFor(s.checkouts[c], r)
        {
          assert !Withdraws(s, Shop(e), c);
        }
        CloseEndsNothing(s, r);
      }
  }

  // ----- Checkouts -----

  lemma OneEnds(config: Config, s: State, e: ShopEvent, c: Id, d: Id)
    requires Reachable(config, s) && c in s.checkouts && d in s.checkouts
    requires Withdraws(s, Shop(e), c) || Expires(s, Shop(e), c)
    requires Withdraws(s, Shop(e), d) || Expires(s, Shop(e), d)
    ensures c == d
  {
    hide Reachable;
    if e.CloseRequest? {
      RequestStatus.SoleServes(config, s, e.request, c);
      assert RequestStatus.Serves(s, c, e.request) && RequestStatus.Serves(s, d, e.request);
    }
  }

  lemma AfterEnding(config: Config, s: State, e: ShopEvent, c: Id)
    requires Reachable(config, s) && Ending(e) && c in s.checkouts
    ensures var t := After(config, s, Shop(e));
            c in t.checkouts && t.checkouts[c] == s.checkouts[c].(status := CheckoutAfter(s, Shop(e), c))
  {
    hide Reachable, After, Withdraws, Expires;
    NotCharged(s, e, c);
    if d :| d in s.checkouts && (Withdraws(s, Shop(e), d) || Expires(s, Shop(e), d)) {
      EndingIs(config, s, e, d);
      Which(s, e, d);
      if Withdraws(s, Shop(e), c) || Expires(s, Shop(e), c) {
        OneEnds(config, s, e, c, d);
      }
    } else {
      EndingNothing(config, s, e);
    }
  }

  lemma NotCharged(s: State, e: ShopEvent, c: Id)
    ensures !PaysFor(s, Shop(e), c)
  {
  }

  lemma Which(s: State, e: ShopEvent, c: Id)
    ensures Expires(s, Shop(e), c) ==> e.Expire?
    ensures Withdraws(s, Shop(e), c) ==> !e.Expire?
  {
  }

  // What a charge does to checkouts, payments and orders.
  lemma AfterCharge(config: Config, s: State, charge: Payments.Charge)
    requires Inv(s)
    ensures var t := After(config, s, Money(Charged(charge)));
            var p := charge.payment;
            if Pays(s, charge) then
              var c := s.payments[p].checkout;
              && t.checkouts == s.checkouts[c := s.checkouts[c].(status := CheckoutStatus.Paid)]
              && t.payments == s.payments[p := s.payments[p].(status := PaymentStatus.Succeeded)]
              && t.orders == Checkouts.WithOrders(s.orders, c, OrderStatus.Pending)
            else
              && SameSales(s, t)
              && t.payments == if p !in s.payments then s.payments
                               else s.payments[p := s.payments[p].(status := Sidelined(s.payments[p].status, charge.outcome))]
  {
    hide Inv, Sync, Checkouts.WithOrders;
    var p := charge.payment;
    if p in s.payments {
      PaymentHasCheckout(s, p);
      SourcingProofs.SyncTouchesStatusOnly(Payments.Settle(s, p), s.checkouts[s.payments[p].checkout].request);
      if !Pays(s, charge) {
        Unpaid(s, charge);
      }
    }
  }

  // Where a reported charge that does not pay leaves its payment.
  function Sidelined(was: PaymentStatus, outcome: Payments.ChargeOutcome): PaymentStatus {
    match outcome
    case Success => if Settled(was) then was else Orphaned
    case Failure => if was.Pending? then PaymentStatus.Failed else was
    case NotYet => was
  }

  lemma Unpaid(s: State, charge: Payments.Charge)
    requires charge.payment in s.payments && s.payments[charge.payment].checkout in s.checkouts && !Pays(s, charge)
    ensures var p := charge.payment;
            var t := Payments.ApplyCharge(s, charge).value;
            && Payments.ApplyCharge(s, charge).Ok? && SameSales(s, t)
            && t.payments == s.payments[p := s.payments[p].(status := Sidelined(s.payments[p].status, charge.outcome))]
  {
    hide Sync, Payments.Settle, SameSales, Payments.SendBack, Payments.FailPending;
    var p := charge.payment;
    var payment := s.payments[p];
    SalesSame(s);
    SentBack(s, p);
    FailedOnly(s, p);
    assert payment.(status := payment.status) == payment && s.payments[p := payment] == s.payments;
    if charge.outcome.Success? {
      assert !Settled(payment.status) ==> Payments.ApplyCharge(s, charge) == Ok(Payments.SendBack(s, p));
    }
  }

  lemma SalesSame(s: State)
    ensures SameSales(s, s)
  {
  }

  lemma SentBack(s: State, p: Id)
    requires p in s.payments
    ensures var t := Payments.SendBack(s, p);
            SameSales(s, t) && t.payments == s.payments[p := s.payments[p].(status := Orphaned)]
  {
    var row := Rows.Refund.Refund(p, None, s.payments[p].charged, RefundStatus.Pending, true);
    assert Payments.SendBack(s, p) == s.(payments := s.payments[p := s.payments[p].(status := Orphaned)],
                                         refunds := s.refunds[s.next := row], next := s.next + 1);
  }

  lemma FailedOnly(s: State, p: Id)
    requires p in s.payments
    ensures var t := Payments.FailPending(s, p);
            && SameSales(s, t)
            && t.payments == s.payments[p := s.payments[p].(status :=
                 if s.payments[p].status.Pending? then PaymentStatus.Failed else s.payments[p].status)]
  {
    if s.payments[p].status.Pending? {
      var t := s.(payments := s.payments[p := s.payments[p].(status := PaymentStatus.Failed)]);
      SalesSame(s);
      assert Payments.FailPending(s, p) == t;
    } else {
      assert Payments.FailPending(s, p) == s;
      assert s.payments[p].(status := s.payments[p].status) == s.payments[p];
    }
  }

  lemma ChargedCheckout(config: Config, s: State, charge: Payments.Charge, c: Id)
    requires Inv(s) && c in s.checkouts
    ensures var e := Money(Charged(charge));
            var t := After(config, s, e);
            c in t.checkouts && t.checkouts[c] == s.checkouts[c].(status := CheckoutAfter(s, e, c))
  {
    hide Inv, After, Pays;
    AfterCharge(config, s, charge);
    if Pays(s, charge) {
      PaysKnown(s, charge);
    }
  }

  lemma PaysKnown(s: State, charge: Payments.Charge)
    requires Pays(s, charge)
    ensures charge.payment in s.payments && s.payments[charge.payment].checkout in s.checkouts
  {
  }

  lemma StandsStill(s: State, t: State, e: Event, c: Id)
    requires c in s.checkouts && t.checkouts == s.checkouts
    requires !(e.Money? && e.money.Charged?) && !(e.Shop? && Ending(e.shop))
    ensures c in t.checkouts && t.checkouts[c] == s.checkouts[c].(status := CheckoutAfter(s, e, c))
  {
  }

  /**
   * A checkout becomes PAID exactly when a verified charge of its money arrives while it waits, CANCELLED when
   * its buyer or the closing of its request withdraws it while it waits, EXPIRED when it is swept after its
   * time while it waits; no event changes anything else about it.
   */
  lemma CheckoutMoves(config: Config, s: State, e: Event, c: Id)
    requires Reachable(config, s) && c in s.checkouts
    ensures var t := After(config, s, e);
            c in t.checkouts && t.checkouts[c] == s.checkouts[c].(status := CheckoutAfter(s, e, c))
  {
    hide Reachable, Inv, ApplyShop, ApplyOrder, ApplyMoney, CheckoutAfter;
    ReachableOk(config, s);
    EventWrites(config, s, e);
    if e.Shop? && Ending(e.shop) {
      AfterEnding(config, s, e.shop, c);
    } else if e.Money? && e.money.Charged? {
      ChargedCheckout(config, s, e.money.charge, c);
    } else if e.Shop? && Placing(e.shop) {
      PlacedCheckout(config, s, e.shop, c);
    } else {
      assert After(config, s, e).checkouts == s.checkouts;
      StandsStill(s, After(config, s, e), e, c);
    }
  }

  lemma PlacedCheckout(config: Config, s: State, e: ShopEvent, c: Id)
    requires Inv(s) && Placing(e) && c in s.checkouts
    ensures var t := After(config, s, Shop(e));
            c in t.checkouts && t.checkouts[c] == s.checkouts[c].(status := CheckoutAfter(s, Shop(e), c))
  {
    hide Inv, ApplyShop;
    if ApplyShop(config, s, e).Ok? {
      AfterPlacing(config, s, e, c);
    }
  }

  // ----- Attempts -----

  /** The event starts a new attempt to pay for checkout `c`. */
  predicate StartsAttempt(s: State, e: Event, c: Id) {
    && e.Money? && e.money.Initiate? && e.money.checkout == c && c in s.checkouts
    && s.checkouts[c].buyer == e.money.buyer
    && (forall p | p in s.payments :: !(s.payments[p].checkout == c && s.payments[p].key == e.money.key))
    && s.checkouts[c].status.AwaitingPayment? && s.checkouts[c].expiresAt > e.money.now
    && (e.money.currency.Usd? ==> e.money.rate.Some? && e.money.rate.value > 0)
  }

  /**
   * An attempt with a key not used on the checkout goes through if and only if the checkout is the buyer's, waits
   * to be paid, has time left, and is to be charged in naira or at a usable rate; any other call makes no payment.
   */
  lemma AttemptIff(config: Config, s: State, c: Id, buyer: Id, key: Id, currency: Currency, rate: Option<nat>, now: int)
    requires Reachable(config, s)
    ensures var e := Money(Initiate(c, buyer, key, currency, rate, now));
            var t := After(config, s, e);
            && (StartsAttempt(s, e, c) <==> t.payments.Keys != s.payments.Keys)
            && (StartsAttempt(s, e, c) ==>
                  s.next in t.payments && t.payments.Keys == s.payments.Keys + {s.next} &&
                  t.payments[s.next].checkout == c && t.payments[s.next].status.Pending?)
            && (!StartsAttempt(s, e, c) ==> t == s)
  {
    hide Reachable, Inv, PaymentsOk, After, StartsAttempt, Checkouts.WithoutPending;
    ReachableOk(config, s);
    PaymentProofs.PaymentTables(s);
    AttemptStarts(config, s, Initiate(c, buyer, key, currency, rate, now));
    PaymentProofs.WithoutPendingKeys(s.payments, c);
  }

  // A call that starts an attempt adds one pending row and abandons the rest; any other call does nothing.
  lemma AttemptStarts(config: Config, s: State, e: MoneyEvent)
    requires e.Initiate?
    ensures var t := After(config, s, Money(e));
            if StartsAttempt(s, Money(e), e.checkout) then
              && s.next in t.payments && t.payments[s.next].checkout == e.checkout && t.payments[s.next].status.Pending?
              && t.payments == Checkouts.WithoutPending(s.payments, e.checkout)[s.next := t.payments[s.next]]
            else t == s
  {
    hide Payments.Initiate, StartsAttempt, Checkouts.WithoutPending;
    AttemptIs(s, e.checkout, e.buyer, e.key, e.currency, e.rate, e.now);
  }

  lemma AttemptIs(s: State, c: Id, buyer: Id, key: Id, currency: Currency, rate: Option<nat>, now: int)
    ensures var attempt := Payments.Initiate(s, c, buyer, key, currency, rate, now);
            if StartsAttempt(s, Money(Initiate(c, buyer, key, currency, rate, now)), c) then
              && attempt.Ok?
              && var t := attempt.value;
              && s.next in t.payments && t.payments[s.next].checkout == c && t.payments[s.next].status.Pending?
              && t.payments == Checkouts.WithoutPending(s.payments, c)[s.next := t.payments[s.next]]
            else attempt.Ok? ==> attempt.value == s
  {
    hide NgnToUsd, Checkouts.WithoutPending;
    assert Payments.HasAttempt(s.payments, c, key) <==>
      !forall p | p in s.payments :: !(s.payments[p].checkout == c && s.payments[p].key == key);
  }

  /** At one moment a checkout can be paid for or expire, not both. */
  lemma AttemptOrExpiry(config: Config, s: State, c: Id, buyer: Id, key: Id, currency: Currency, rate: Option<nat>,
                        now: int)
    requires Reachable(config, s)
    ensures !(StartsAttempt(s, Money(Initiate(c, buyer, key, currency, rate, now)), c) &&
              After(config, s, Shop(Expire(c, now))) != s)
  {
    hide Sync, Checkouts.Release, Reachable;
  }

  // ----- Payments -----

  /** Where an event leaves the status of a payment. */
  function PaymentAfter(s: State, e: Event, p: Id): PaymentStatus
    requires p in s.payments
  {
    var was, c := s.payments[p].status, s.payments[p].checkout;
    if e.Money? && e.money.Charged? && e.money.charge.payment == p then
      if Pays(s, e.money.charge) then PaymentStatus.Succeeded else Sidelined(was, e.money.charge.outcome)
    else if was.Pending? && e == Money(OpenFailed(p)) then PaymentStatus.Failed
    else if was.Pending? && (StartsAttempt(s, e, c) || Withdraws(s, e, c) || Expires(s, e, c)) then Abandoned
    else was
  }

  lemma AbandonedOn(payments: map<Id, Payment>, c: Id, p: Id)
    requires p in payments
    ensures p in Checkouts.WithoutPending(payments, c)
    ensures Checkouts.WithoutPending(payments, c)[p]
            == payments[p].(status := if payments[p].checkout == c && payments[p].status.Pending? then Abandoned
                                      else payments[p].status)
  {
  }

  lemma EndedPayment(config: Config, s: State, e: ShopEvent, p: Id)
    requires Reachable(config, s) && Ending(e) && p in s.payments && s.payments[p].checkout in s.checkouts
    ensures var t := After(config, s, Shop(e));
            p in t.payments && t.payments[p] == s.payments[p].(status := PaymentAfter(s, Shop(e), p))
  {
    hide Reachable, After, Withdraws, Expires, Checkouts.WithoutPending;
    if d :| d in s.checkouts && (Withdraws(s, Shop(e), d) || Expires(s, Shop(e), d)) {
      EndingIs(config, s, e, d);
      AbandonedOn(s.payments, d, p);
      if Withdraws(s, Shop(e), s.payments[p].checkout) || Expires(s, Shop(e), s.payments[p].checkout) {
        OneEnds(config, s, e, s.payments[p].checkout, d);
      }
    } else {
      EndingNothing(config, s, e);
    }
  }

  lemma AttemptedPayment(config: Config, s: State, e: MoneyEvent, p: Id)
    requires Inv(s) && e.Initiate? && p in s.payments
    ensures var t := After(config, s, Money(e));
            p in t.payments && t.payments[p] == s.payments[p].(status := PaymentAfter(s, Money(e), p))
  {
    hide Inv, PaymentsOk, After, Checkouts.WithoutPending, StartsAttempt;
    PaymentProofs.PaymentTables(s);
    AttemptStarts(config, s, e);
    AbandonedOn(s.payments, e.checkout, p);
    NoOtherAttempt(s, e, s.payments[p].checkout);
  }

  lemma NoOtherAttempt(s: State, e: MoneyEvent, c: Id)
    requires e.Initiate?
    ensures StartsAttempt(s, Money(e), c) ==> c == e.checkout
  {
  }

  lemma ChargedPayment(config: Config, s: State, charge: Payments.Charge, p: Id)
    requires Inv(s) && p in s.payments
    ensures var t := After(config, s, Money(Charged(charge)));
            p in t.payments && t.payments[p] == s.payments[p].(status := PaymentAfter(s, Money(Charged(charge)), p))
  {
    hide Inv, After, Pays;
    AfterCharge(config, s, charge);
    if Pays(s, charge) {
      PaysKnown(s, charge);
    }
  }

  lemma OpenFailedPayment(config: Config, s: State, q: Id, p: Id)
    requires p in s.payments
    ensures var t := After(config, s, Money(OpenFailed(q)));
            p in t.payments && t.payments[p] == s.payments[p].(status := PaymentAfter(s, Money(OpenFailed(q)), p))
  {
    if q in s.payments {
      FailedOnly(s, q);
    }
  }

  /**
   * A payment succeeds exactly when its charge is reported successful while its checkout waits for exactly that
   * money, and is orphaned when a success finds anything else; a failure reported, or the provider's page not
   * opening, fails it only while it is pending; a report that says neither leaves it alone; and it is abandoned
   * when a newer attempt starts or its checkout ends. No event changes anything else about a payment.
   */
  lemma PaymentStatusMoves(config: Config, s: State, e: Event, p: Id)
    requires Reachable(config, s) && p in s.payments
    ensures var t := After(config, s, e);
            p in t.payments && t.payments[p] == s.payments[p].(status := PaymentAfter(s, e, p))
  {
    hide Reachable, Inv, ApplyShop, ApplyOrder, ApplyMoney, PaymentAfter;
    ReachableOk(config, s);
    PaymentHasCheckout(s, p);
    EventWrites(config, s, e);
    if e.Shop? && Ending(e.shop) {
      EndedPayment(config, s, e.shop, p);
    } else if e.Money? && e.money.Charged? {
      ChargedPayment(config, s, e.money.charge, p);
    } else if e.Money? && e.money.Initiate? {
      AttemptedPayment(config, s, e.money, p);
    } else if e.Money? && e.money.OpenFailed? {
      OpenFailedPayment(config, s, e.money.payment, p);
    } else {
      assert After(config, s, e).payments == s.payments;
      PaymentStands(s, e, p);
    }
  }

  lemma PaymentStands(s: State, e: Event, p: Id)
    requires p in s.payments && !(e.Shop? && Ending(e.shop))
    requires !(e.Money? && (e.money.Charged? || e.money.Initiate? || e.money.OpenFailed?))
    ensures s.payments[p] == s.payments[p].(status := PaymentAfter(s, e, p))
  {
  }

  // ----- Refunds -----

  /** A refund settles once, as the provider reports, and no other event moves it. */
  lemma RefundMoves(config: Config, s: State, e: Event, r: Id)
    requires Reachable(config, s) && r in s.refunds
    ensures var t := After(config, s, e);
            var settles := e.Money? && e.money.RefundSettled? && e.money.refund == r && s.refunds[r].status.Pending?;
            && r in t.refunds
            && t.refunds[r] == s.refunds[r].(status := if !settles then s.refunds[r].status
                                                       else if e.money.processed then Processed else RefundStatus.Failed)
  {
    hide Reachable, Inv, ApplyShop, ApplyOrder, ApplyMoney;
    hide OrdersEvolve, CheckoutsEvolve, PaymentsEvolve, PayoutsEvolve, ItemsEvolve, RequestsEvolve;
    ReachableOk(config, s);
    EventWrites(config, s, e);
    StepKeeps(config, s, e);
    if e.Money? {
      RefundOnMoney(config, s, e.money, r);
    }
  }

  lemma RefundOnMoney(config: Config, s: State, e: MoneyEvent, r: Id)
    requires Inv(s) && r in s.refunds
    ensures var t := After(config, s, Money(e));
            && r in t.refunds
            && t.refunds[r].status == if e.RefundSettled? && e.refund == r && s.refunds[r].status.Pending? then
                                        (if e.processed then Processed else RefundStatus.Failed)
                                      else s.refunds[r].status
  {
    hide Inv, ApplyMoney;
    EventWrites(config, s, Money(e));
    Solvency.RefundsFresh(s);
    if ApplyMoney(config, s, e).Ok? {
      match e
      case Charged(charge) => RefundOnCharge(config, s, charge, r);
      case Refund(p, order) => RefundOnRefund(config, s, p, order, r);
      case RefundSettled(q, processed) => RefundOnResult(config, s, q, processed, r);
      case _ =>
    } else if e.RefundSettled? && e.refund == r {
      RefundOnResult(config, s, r, e.processed, r);
    }
  }

  lemma RefundOnResult(config: Config, s: State, q: Id, processed: bool, r: Id)
    requires r in s.refunds
    ensures var t := After(config, s, Money(RefundSettled(q, processed)));
            && r in t.refunds
            && t.refunds[r].status == if q == r && s.refunds[r].status.Pending? then
                                        (if processed then Processed else RefundStatus.Failed)
                                      else s.refunds[r].status
  {
    hide Refunds.SettleRefund;
    if q in s.refunds {
      ResultIs(s, q, processed);
    } else {
      assert Refunds.SettleRefund(s, q, processed).Refused? by { UnknownRefund(s, q, processed); }
    }
  }

  lemma UnknownRefund(s: State, q: Id, processed: bool)
    requires q !in s.refunds
    ensures Refunds.SettleRefund(s, q, processed).Refused?
  {
  }

  lemma ResultIs(s: State, q: Id, processed: bool)
    requires q in s.refunds
    ensures Refunds.SettleRefund(s, q, processed).Ok?
    ensures var was := s.refunds[q];
            Refunds.SettleRefund(s, q, processed).value.refunds
            == s.refunds[q := was.(status := if !was.status.Pending? then was.status
                                             else if processed then Processed else RefundStatus.Failed)]
  {
    var was := s.refunds[q];
    if was.status.Pending? {
      var status := if processed then Processed else RefundStatus.Failed;
      assert Refunds.SettleRefund(s, q, processed) == Ok(s.(refunds := s.refunds[q := was.(status := status)]));
    } else {
      assert Refunds.SettleRefund(s, q, processed) == Ok(s);
      assert was.(status := was.status) == was && s.refunds[q := was] == s.refunds;
    }
  }

  lemma RefundOnRefund(config: Config, s: State, p: Id, order: Option<Id>, r: Id)
    requires r in s.refunds && s.next !in s.refunds
    ensures var t := After(config, s, Money(MoneyEvent.Refund(p, order))); r in t.refunds && t.refunds[r] == s.refunds[r]
  {
    hide Refunds.OrderAmount, Refunds.LiveItemOn, Refunds.Remaining;
  }

  lemma RefundOnCharge(config: Config, s: State, charge: Payments.Charge, r: Id)
    requires Inv(s) && r in s.refunds && s.next !in s.refunds
    ensures var t := After(config, s, Money(Charged(charge))); r in t.refunds && t.refunds[r] == s.refunds[r]
  {
    hide Inv, Sync, Payments.Orphan, Payments.Settle, Payments.SendBack, Payments.FailPending;
    var p := charge.payment;
    if p in s.payments {
      PaymentHasCheckout(s, p);
      SettleWrites(s, p, s.checkouts[s.payments[p].checkout].request);
      FailedWrites(s, p);
      OwedBack(s, p);
    }
  }

  lemma OwedBack(s: State, p: Id)
    requires p in s.payments
    ensures forall r | r in s.refunds && r != s.next ::
              r in Payments.SendBack(s, p).refunds && Payments.SendBack(s, p).refunds[r] == s.refunds[r]
  {
    assert Payments.SendBack(s, p).refunds
           == s.refunds[s.next := Rows.Refund.Refund(p, None, s.payments[p].charged, RefundStatus.Pending, true)];
  }
}
