/**
 * Calls that clients and the provider repeat. Once one has gone through, the same call again, however
 * much has happened since, changes nothing.
 */
module Replays {
  import opened Rows
  import Stock
  import Sourcing
  import SourcingProofs
  import Checkouts
  import Payments
  import Refunds
  import Payouts
  import opened Invariants
  import opened Evolution
  import opened Runs
  import PaymentSafety

  predicate Repeatable(e: Event) {
    match e
    case Shop(x) =>
      x.BuyNow? || x.PlaceOrders? || x.ConfirmRequest? || x.CancelCheckout? || x.Expire? || x.CloseRequest?
    case Order(_) => false
    case Money(x) => x.Initiate? || x.OpenFailed? || x.Charged? || x.RefundSettled? || x.TransferSettled?
  }

  /** What a call leaves behind that makes repeating it idle. */
  predicate ShopSpent(s: State, e: ShopEvent) {
    match e
    case BuyNow(draft, _, _) => Checkouts.HasKey(s.checkouts, draft.buyer, draft.key)
    case PlaceOrders(draft, _) => Checkouts.HasKey(s.checkouts, draft.buyer, draft.key)
    case ConfirmRequest(r, draft, _, _) =>
      r in s.requests && Checkouts.HasKey(s.checkouts, s.requests[r].buyer, draft.key)
    case CancelCheckout(c, _) => c in s.checkouts && !s.checkouts[c].status.AwaitingPayment?
    case Expire(c, _) => c in s.checkouts && !s.checkouts[c].status.AwaitingPayment?
    case CloseRequest(r) => r in s.requests && s.requests[r].status.Closed?
    case _ => false
  }

  predicate MoneySpent(s: State, e: MoneyEvent) {
    match e
    case Initiate(c, _, key, _, _, _) => c in s.checkouts && Payments.HasAttempt(s.payments, c, key)
    case OpenFailed(p) => p in s.payments && !s.payments[p].status.Pending?
    case Charged(charge) =>
      && charge.payment in s.payments
      && (charge.outcome.Success? ==> Settled(s.payments[charge.payment].status))
      && (charge.outcome.Failure? ==> !s.payments[charge.payment].status.Pending?)
    case RefundSettled(r, _) => r in s.refunds && !s.refunds[r].status.Pending?
    case TransferSettled(p, outcome) => p in s.payouts && !Payouts.MaySettle(s.payouts[p].status, outcome)
    case _ => false
  }

  predicate Spent(s: State, e: Event) {
    match e
    case Shop(x) => ShopSpent(s, x)
    case Order(_) => false
    case Money(x) => MoneySpent(s, x)
  }

  // ----- A spent call is idle -----

  lemma SpentIsIdle(config: Config, s: State, e: Event)
    requires Spent(s, e) && Repeatable(e)
    ensures After(config, s, e) == s
  {
    hide Checkouts.Place, Checkouts.Release, Sourcing.Sync, Payments.SendBack, Payments.Settle;
  }

  // ----- Nothing that happens later unspends it -----

  lemma KeyStays(before: map<Id, Checkout>, after: map<Id, Checkout>, buyer: Id, key: Id)
    requires CheckoutsEvolve(before, after) && Checkouts.HasKey(before, buyer, key)
    ensures Checkouts.HasKey(after, buyer, key)
  {
    var c :| c in before && before[c].buyer == buyer && before[c].key == key;
    assert after[c].buyer == buyer;
  }

  lemma AttemptStays(before: map<Id, Payment>, after: map<Id, Payment>, c: Id, key: Id)
    requires PaymentsEvolve(before, after) && Payments.HasAttempt(before, c, key)
    ensures Payments.HasAttempt(after, c, key)
  {
    var p :| p in before && before[p].checkout == c && before[p].key == key;
    assert after[p].checkout == c;
  }

  lemma ShopStaysSpent(s: State, t: State, e: ShopEvent)
    requires ShopSpent(s, e) && Evolves(s, t)
    ensures ShopSpent(t, e)
  {
    hide OrdersEvolve, PaymentsEvolve, RefundsEvolve, PayoutsEvolve, ItemsEvolve, Checkouts.HasKey;
    match e
    case BuyNow(draft, _, _) => KeyStays(s.checkouts, t.checkouts, draft.buyer, draft.key);
    case PlaceOrders(draft, _) => KeyStays(s.checkouts, t.checkouts, draft.buyer, draft.key);
    case ConfirmRequest(r, draft, _, _) => KeyStays(s.checkouts, t.checkouts, s.requests[r].buyer, draft.key);
    case _ =>
  }

  lemma MoneyStaysSpent(s: State, t: State, e: MoneyEvent)
    requires MoneySpent(s, e) && Evolves(s, t)
    ensures MoneySpent(t, e)
  {
    hide OrdersEvolve, ItemsEvolve, Payments.HasAttempt, RequestsEvolve;
    match e
    case Initiate(c, _, key, _, _, _) => AttemptStays(s.payments, t.payments, c, key);
    case _ =>
  }

  // ----- Going through spends it -----

  lemma PlacedKey(s: State, config: Config, draft: Checkouts.Draft, lines: seq<Checkouts.Line>, request: Option<Id>,
                  now: int, lost: Error)
    requires Checkouts.Place(s, config, draft, lines, request, now, lost).Ok?
    ensures var t := Checkouts.Place(s, config, draft, lines, request, now, lost).value;
            Checkouts.HasKey(t.checkouts, draft.buyer, draft.key) && t.requests == s.requests
  {
    hide Checkouts.ReserveAll, Checkouts.AddOrders;
    var t := Checkouts.Place(s, config, draft, lines, request, now, lost).value;
    assert t.checkouts[s.next].buyer == draft.buyer && t.checkouts[s.next].key == draft.key;
  }

  lemma PlacingSpends(config: Config, s: State, e: ShopEvent)
    requires e.BuyNow? || e.PlaceOrders? || e.ConfirmRequest?
    requires ApplyShop(config, s, e).Ok?
    ensures ShopSpent(ApplyShop(config, s, e).value, e)
  {
    hide Sourcing.Sync, Checkouts.Place, Sourcing.ListingEligible, Checkouts.Selected, Checkouts.HasKey;
    match e
    case BuyNow(draft, line, now) =>
      if !Checkouts.HasKey(s.checkouts, draft.buyer, draft.key) {
        PlacedKey(s, config, draft, [line], None, now, Stock.OrderRefusal(s.listings, s.verified, line.listing));
      }
    case PlaceOrders(draft, now) =>
      if !Checkouts.HasKey(s.checkouts, draft.buyer, draft.key) {
        PlacedKey(s, config, draft, Checkouts.SortedLines(Checkouts.CartOf(s, draft.buyer)), None, now, CartNeedsAttention);
      }
    case ConfirmRequest(r, draft, matching, now) =>
      var row := s.requests[r];
      if !Checkouts.HasKey(s.checkouts, row.buyer, draft.key) {
        var lines, mine := Checkouts.SortedLines(row.allocations), draft.(buyer := row.buyer);
        var placed := Checkouts.Place(s, config, mine, lines, Some(r), now, ListingNotEligible).value;
        PlacedKey(s, config, mine, lines, Some(r), now, ListingNotEligible);
        SyncKeepsBuyers(placed, r);
      }
  }

  lemma SyncKeepsBuyers(s: State, r: Id)
    ensures Sourcing.Sync(s, Some(r)).checkouts == s.checkouts
    ensures Sourcing.Sync(s, Some(r)).requests.Keys == s.requests.Keys
    ensures forall q | q in s.requests :: Sourcing.Sync(s, Some(r)).requests[q].buyer == s.requests[q].buyer
  {
    hide Sourcing.ViewOf, Sourcing.DeriveRequestStatus;
  }

  lemma SyncCloses(s: State, r: Id)
    requires r in s.requests && s.requests[r].closed
    ensures r in Sourcing.Sync(s, Some(r)).requests && Sourcing.Sync(s, Some(r)).requests[r].status.Closed?
  {
    hide Sourcing.Has, Sourcing.PaidOrders;
  }

  lemma EndedSpent(s: State, c: Id, status: CheckoutStatus, r: Option<Id>)
    requires c in s.checkouts && !status.AwaitingPayment?
    ensures var t := Sourcing.Sync(Checkouts.Release(s, c, status), r);
            c in t.checkouts && !t.checkouts[c].status.AwaitingPayment?
  {
    hide Sourcing.Sync, Checkouts.Returned, Checkouts.WithOrders, Checkouts.WithoutPending;
    SourcingProofs.SyncTouchesStatusOnly(Checkouts.Release(s, c, status), r);
  }

  lemma ClosingSpends(s: State, r: Id)
    requires Checkouts.CloseRequest(s, r).Ok?
    ensures var t := Checkouts.CloseRequest(s, r).value; r in t.requests && t.requests[r].status.Closed?
  {
    hide Sourcing.Sync, Checkouts.Returned, Checkouts.WithOrders, Checkouts.WithoutPending;
    var closed := s.(requests := s.requests[r := s.requests[r].(closed := true)]);
    forall c | c in s.checkouts && Checkouts.AwaitingFor(s.checkouts[c], r) {
      SyncCloses(Checkouts.Release(closed, c, CheckoutStatus.Cancelled), r);
    }
    SyncCloses(closed, r);
  }

  lemma ReleasingSpends(config: Config, s: State, e: ShopEvent)
    requires e.CancelCheckout? || e.Expire? || e.CloseRequest?
    requires ApplyShop(config, s, e).Ok?
    ensures ShopSpent(ApplyShop(config, s, e).value, e)
  {
    hide Sourcing.Sync, Checkouts.Release, Checkouts.CloseRequest;
    match e
    case CancelCheckout(c, _) => EndedSpent(s, c, CheckoutStatus.Cancelled, s.checkouts[c].request);
    case Expire(c, _) => EndedSpent(s, c, Expired, s.checkouts[c].request);
    case CloseRequest(r) => ClosingSpends(s, r);
  }

  lemma FailedSpends(s: State, p: Id)
    requires p in s.payments
    ensures p in Payments.FailPending(s, p).payments && !Payments.FailPending(s, p).payments[p].status.Pending?
  {
  }

  lemma ChargeSpends(s: State, charge: Payments.Charge)
    requires Payments.ApplyCharge(s, charge).Ok?
    ensures MoneySpent(Payments.ApplyCharge(s, charge).value, Charged(charge))
  {
    hide Sourcing.Sync, Payments.Settle, Payments.SendBack, Payments.Orphan, Payments.FailPending;
    FailedSpends(s, charge.payment);
    if charge.outcome.Success? {
      PaymentSafety.SuccessSettles(s, charge);
    }
  }

  lemma RefundSpends(s: State, r: Id, processed: bool)
    requires Refunds.SettleRefund(s, r, processed).Ok?
    ensures var t := Refunds.SettleRefund(s, r, processed).value; r in t.refunds && !t.refunds[r].status.Pending?
  {
  }

  lemma TransferSpends(s: State, p: Id, outcome: PayoutStatus)
    requires Payouts.SettlePayout(s, p, outcome).Ok?
    ensures var t := Payouts.SettlePayout(s, p, outcome).value;
            p in t.payouts && !Payouts.MaySettle(t.payouts[p].status, outcome)
  {
  }

  lemma AttemptSpends(s: State, c: Id, buyer: Id, key: Id, currency: Currency, rate: Option<nat>, now: int)
    requires Payments.Initiate(s, c, buyer, key, currency, rate, now).Ok?
    ensures MoneySpent(Payments.Initiate(s, c, buyer, key, currency, rate, now).value,
                       Initiate(c, buyer, key, currency, rate, now))
  {
    hide Checkouts.WithoutPending;
    var t := Payments.Initiate(s, c, buyer, key, currency, rate, now).value;
    if !Payments.HasAttempt(s.payments, c, key) {
      assert t.payments[s.next].checkout == c && t.payments[s.next].key == key;
    }
  }

  lemma MoneySpends(config: Config, s: State, e: MoneyEvent)
    requires e.Initiate? || e.OpenFailed? || e.Charged? || e.RefundSettled? || e.TransferSettled?
    requires ApplyMoney(config, s, e).Ok?
    ensures MoneySpent(ApplyMoney(config, s, e).value, e)
  {
    hide Payments.Initiate, Payments.ApplyCharge, Payments.FailPending, Refunds.SettleRefund, Payouts.SettlePayout;
    match e
    case Initiate(c, buyer, key, currency, rate, now) => AttemptSpends(s, c, buyer, key, currency, rate, now);
    case OpenFailed(p) => FailedSpends(s, p);
    case Charged(charge) => ChargeSpends(s, charge);
    case RefundSettled(r, processed) => RefundSpends(s, r, processed);
    case TransferSettled(p, outcome) => TransferSpends(s, p, outcome);
  }

  lemma GoingThroughSpends(config: Config, s: State, e: Event)
    requires Repeatable(e) && Apply(config, s, e).Ok?
    ensures Spent(Apply(config, s, e).value, e)
  {
    hide ApplyShop, ApplyMoney, ShopSpent, MoneySpent;
    match e
    case Shop(x) =>
      if x.BuyNow? || x.PlaceOrders? || x.ConfirmRequest? {
        PlacingSpends(config, s, x);
      } else {
        ReleasingSpends(config, s, x);
      }
    case Money(x) => MoneySpends(config, s, x);
  }

  /**
   * Retries are no-ops. Whatever happens between a call that went through and its repetition, the
   * repetition leaves the ledger exactly as it finds it: no stock moves, no order, payment, refund or
   * payout is made or changed.
   */
  lemma RepeatsChangeNothing(config: Config, s: State, e: Event, events: seq<Event>)
    requires Reachable(config, s) && Repeatable(e) && Apply(config, s, e).Ok?
    ensures var t := Run(config, After(config, s, e), events); After(config, t, e) == t
  {
    hide Reachable, Inv, Evolves, Run, Apply, Spent, Repeatable;
    var u := After(config, s, e);
    ReachableOk(config, s);
    StepKeeps(config, s, e);
    RunKeeps(config, u, events);
    GoingThroughSpends(config, s, e);
    StaysSpent(u, Run(config, u, events), e);
    SpentIsIdle(config, Run(config, u, events), e);
  }

  lemma StaysSpent(s: State, t: State, e: Event)
    requires Spent(s, e) && Evolves(s, t)
    ensures Spent(t, e)
  {
    hide ShopSpent, MoneySpent, Evolves;
    match e
    case Shop(x) => ShopStaysSpent(s, t, x);
    case Money(x) => MoneyStaysSpent(s, t, x);
  }

  /** A buyer has at most one checkout for a key, whichever of the three ways it was placed. */
  lemma OneCheckoutPerKey(config: Config, s: State, c: Id, d: Id)
    requires Reachable(config, s) && c in s.checkouts && d in s.checkouts
    requires s.checkouts[c].buyer == s.checkouts[d].buyer && s.checkouts[c].key == s.checkouts[d].key
    ensures c == d
  {
    hide Reachable, Inv;
    ReachableOk(config, s);
    PaymentSafety.CheckoutTables(s);
  }

  /**
   * A key its buyer has used is answered from the checkout it made: again by any way of placing, except that
   * confirming a request refuses a key that was not used for that request.
   */
  lemma UsedKeyAnswers(config: Config, s: State, c: Id, draft: Checkouts.Draft, line: Checkouts.Line, now: int, r: Id,
                       matching: set<Id>)
    requires Reachable(config, s) && c in s.checkouts
    requires s.checkouts[c].buyer == draft.buyer && s.checkouts[c].key == draft.key
    ensures Checkouts.BuyNow(s, config, draft, line, now) == Ok(s)
    ensures Checkouts.PlaceOrders(s, config, draft, now) == Ok(s)
    ensures r in s.requests && s.requests[r].buyer == draft.buyer ==>
              Checkouts.ConfirmRequest(s, config, r, draft, matching, now)
              == if s.checkouts[c].request == Some(r) then Ok(s) else Refused(KeyTaken)
  {
    hide Reachable, Inv, Checkouts.Place;
    forall d | d in s.checkouts && s.checkouts[d].buyer == draft.buyer && s.checkouts[d].key == draft.key
      ensures d == c
    {
      OneCheckoutPerKey(config, s, c, d);
    }
  }
}
