/** Refunds of single cancelled orders and of a payment's whole balance. */
module Refunds {
  import opened Rows
  import opened Sums
  import opened Money

  ghost function LiveOn(payment: Id): Refund -> int {
    (refund: Refund) => if refund.payment == payment && refund.Live() then refund.amount else 0
  }

  ghost function Remaining(payments: map<Id, Payment>, refunds: map<Id, Refund>, p: Id): int
    requires p in payments
  {
    payments[p].charged - Sum(refunds, LiveOn(p))
  }

  predicate LiveItemOn(items: map<(Id, Id), Item>, orders: map<Id, Order>, c: Id) {
    exists i | i in items :: items[i].Live() && items[i].order in orders && orders[items[i].order].checkout == Some(c)
  }

  predicate RefundedOn(refunds: map<Id, Refund>, p: Id, o: Id) {
    exists r | r in refunds :: refunds[r].payment == p && refunds[r].Live() && refunds[r].order == Some(o)
  }

  // What refunding one order is worth; refused unless it is a cancelled order of this checkout.
  function OrderAmount(s: State, p: Id, o: Id): Result<nat>
    requires p in s.payments
  {
    var payment := s.payments[p];
    if o !in s.orders || s.orders[o].checkout != Some(payment.checkout) || !s.orders[o].status.Cancelled? then
      Refused(OrderNotRefundable)
    else if RefundedOn(s.refunds, p, o) then Refused(OrderAlreadyRefunded)
    else if payment.checkout !in s.checkouts || s.checkouts[payment.checkout].subtotal == 0 || payment.amount == 0 then
      Refused(OrderNotRefundable)
    else
      var checkout := s.checkouts[payment.checkout];
      Ok(OrderShare(s.orders[o].total, checkout.serviceFee, checkout.subtotal, payment.amount, payment.charged))
  }

  ghost function RefundStep(s: State, p: Id, order: Option<Id>): Result<State> {
    if p !in s.payments then Refused(PaymentNotFound)
    else
      var payment := s.payments[p];
      var remaining := Remaining(s.payments, s.refunds, p);
      if !payment.status.Succeeded? && (order.Some? || !payment.status.Orphaned?) then Refused(PaymentNotRefundable)
      else if order.None? && payment.status.Succeeded? && LiveItemOn(s.items, s.orders, payment.checkout) then
        Refused(OrdersPaidOut)
      else
        var amount := if order.Some? then OrderAmount(s, p, order.value)
                      else Ok(if remaining > 0 then remaining else 0);
        if amount.Refused? then Refused(amount.error)
        else if remaining <= 0 then Refused(NothingToRefund)
        else if amount.value > remaining then Refused(RefundExceedsBalance)
        else
          Ok(s.(refunds := s.refunds[s.next := Refund(p, order, amount.value, RefundStatus.Pending, false)],
                next := s.next + 1))
  }

  // The provider's answer, from submitting the refund or from its webhook. Settled rows do not move.
  function SettleRefund(s: State, r: Id, processed: bool): Result<State> {
    if r !in s.refunds then Refused(NotFound)
    else if !s.refunds[r].status.Pending? then Ok(s)
    else Ok(s.(refunds := s.refunds[r := s.refunds[r].(status := if processed then Processed else RefundStatus.Failed)]))
  }
}
