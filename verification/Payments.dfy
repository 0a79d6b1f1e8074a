/** Attempts to pay for a checkout, and the four things a reported charge can do to one. */
module Payments {
  import opened Rows
  import opened Money
  import opened Sourcing
  import Checkouts

  predicate HasAttempt(payments: map<Id, Payment>, c: Id, key: Id) {
    exists p | p in payments :: payments[p].checkout == c && payments[p].key == key
  }

  // `rate` is None when the newest exchange rate is too old to use.
  function Initiate(s: State, c: Id, buyer: Id, key: Id, currency: Currency, rate: Option<nat>, now: int)
    : Result<State>
  {
    if c !in s.checkouts || s.checkouts[c].buyer != buyer then Refused(CheckoutNotFound)
    else if HasAttempt(s.payments, c, key) then Ok(s)
    else if !s.checkouts[c].status.AwaitingPayment? || s.checkouts[c].expiresAt <= now then Refused(CheckoutNotPayable)
    else if currency.Usd? && (rate.None? || rate.value == 0) then Refused(FxRateStale)
    else
      var total := s.checkouts[c].total;
      var charged := if currency.Ngn? then total else NgnToUsd(total, rate.value);
      var row := Payment(c, key, total, currency, charged, PaymentStatus.Pending);
      Ok(s.(payments := Checkouts.WithoutPending(s.payments, c)[s.next := row], next := s.next + 1))
  }

  // The provider could not open the payment page.
  function OpenFailed(s: State, p: Id): Result<State> {
    if p !in s.payments then Refused(PaymentNotFound)
    else Ok(FailPending(s, p))
  }

  datatype ChargeOutcome = Success | Failure | NotYet

  /** A charge as the provider reports it, in minor units; no currency stands for any other one. */
  datatype Charge = Charge(payment: Id, outcome: ChargeOutcome, currency: Option<Currency>, amount: int)

  // Statuses in which a reported success still decides something.
  predicate Applicable(status: PaymentStatus) {
    status.Pending? || status.Abandoned? || status.Failed?
  }

  predicate Orphan(payment: Payment, checkout: Checkout, charge: Charge) {
    charge.currency != Some(payment.currency) || charge.amount != payment.charged || !checkout.status.AwaitingPayment?
  }

  // The payment is written off and owed back in full by one new refund.
  function SendBack(s: State, p: Id): State
    requires p in s.payments
  {
    s.(payments := s.payments[p := s.payments[p].(status := PaymentStatus.Orphaned)],
       refunds := s.refunds[s.next := Refund(p, None, s.payments[p].charged, RefundStatus.Pending, true)],
       next := s.next + 1)
  }

  // Payment, checkout and unpaid orders all move together.
  function Settle(s: State, p: Id): State
    requires p in s.payments && s.payments[p].checkout in s.checkouts
  {
    var c := s.payments[p].checkout;
    s.(payments := s.payments[p := s.payments[p].(status := PaymentStatus.Succeeded)],
       checkouts := s.checkouts[c := s.checkouts[c].(status := CheckoutStatus.Paid)],
       orders := Checkouts.WithOrders(s.orders, c, OrderStatus.Pending))
  }

  function FailPending(s: State, p: Id): State
    requires p in s.payments
  {
    if !s.payments[p].status.Pending? then s
    else s.(payments := s.payments[p := s.payments[p].(status := PaymentStatus.Failed)])
  }

  function ApplyCharge(s: State, charge: Charge): Result<State> {
    var p := charge.payment;
    if p !in s.payments || s.payments[p].checkout !in s.checkouts then Refused(PaymentNotFound)
    else
      var payment := s.payments[p];
      if !Applicable(payment.status) then Ok(s)
      else if !charge.outcome.Success? then Ok(if charge.outcome.Failure? then FailPending(s, p) else s)
      else if Orphan(payment, s.checkouts[payment.checkout], charge) then Ok(SendBack(s, p))
      else Ok(Sync(Settle(s, p), s.checkouts[payment.checkout].request))
  }
}
