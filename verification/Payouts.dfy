/** Paying farmers for delivered orders. */
module Payouts {
  import opened Rows
  import opened Sums

  predicate WholeRefund(payments: map<Id, Payment>, refunds: map<Id, Refund>, c: Id) {
    exists r | r in refunds ::
      refunds[r].order.None? && refunds[r].Live() && refunds[r].payment in payments
      && payments[refunds[r].payment].checkout == c && payments[refunds[r].payment].status.Succeeded?
  }

  predicate LiveItem(items: map<(Id, Id), Item>, o: Id) {
    exists i | i in items :: items[i].order == o && items[i].Live()
  }

  /** Delivered and paid long enough ago, to a farmer whose account is clear, and not returned or paid out already. */
  predicate Eligible(s: State, config: Config, o: Id, now: int) {
    && o in s.orders
    && s.orders[o].status.Fulfilled?
    && s.orders[o].fulfilledAt.Some? && s.orders[o].fulfilledAt.value <= now - config.payoutHoldMs
    && s.orders[o].checkout.Some? && s.orders[o].checkout.value in s.checkouts
    && s.checkouts[s.orders[o].checkout.value].status.Paid?
    && !WholeRefund(s.payments, s.refunds, s.orders[o].checkout.value)
    && !LiveItem(s.items, o)
    && s.orders[o].farmer in s.accounts && s.accounts[s.orders[o].farmer] <= now
  }

  function Due(s: State, config: Config, farmer: Id, now: int): map<Id, Order> {
    map o | o in s.orders && s.orders[o].farmer == farmer && Eligible(s, config, o, now) :: s.orders[o]
  }

  ghost function Totals(): Order -> int {
    (order: Order) => order.total
  }

  ghost function ItemsOf(payout: Id): Item -> int {
    (item: Item) => if item.payout == payout then item.amount else 0
  }

  function NewItems(due: map<Id, Order>, payout: Id): map<(Id, Id), Item> {
    map o | o in due :: (payout, o) := Item(payout, o, due[o].total, PayoutStatus.Pending)
  }

  ghost function Total(due: map<Id, Order>): nat {
    SumNonNegative(due, Totals());
    Sum(due, Totals())
  }

  // A payout of `due` to one farmer, with an item for every order.
  ghost function PaidOut(s: State, farmer: Id, due: map<Id, Order>): State {
    s.(payouts := s.payouts[s.next := Payout(farmer, Total(due), PayoutStatus.Pending)],
       items := s.items + NewItems(due, s.next),
       next := s.next + 1)
  }

  // One payout for everything due to one farmer, or nothing when nothing is.
  ghost function ApproveOne(s: State, config: Config, farmer: Id, now: int): State {
    var due := Due(s, config, farmer, now);
    if due == map[] then s else PaidOut(s, farmer, due)
  }

  ghost function Approve(s: State, config: Config, farmers: seq<Id>, now: int): State {
    if farmers == [] then s
    else ApproveOne(Approve(s, config, farmers[..|farmers| - 1], now), config, farmers[|farmers| - 1], now)
  }

  function FailedPayouts(payouts: map<Id, Payout>, ids: set<Id>): map<Id, Payout> {
    map p | p in payouts ::
      if p in ids && payouts[p].status.Pending? then payouts[p].(status := PayoutStatus.Failed) else payouts[p]
  }

  function FailedItems(items: map<(Id, Id), Item>, ids: set<Id>): map<(Id, Id), Item> {
    map i | i in items ::
      if items[i].payout in ids && items[i].status.Pending? then items[i].(status := PayoutStatus.Failed) else items[i]
  }

  // What a batch's payouts and items become when it is known that none of it was sent.
  function RejectTransfers(s: State, ids: set<Id>): State {
    s.(payouts := FailedPayouts(s.payouts, ids), items := FailedItems(s.items, ids))
  }

  // From pending anywhere; from succeeded only to reversed; nothing else moves.
  predicate MaySettle(status: PayoutStatus, outcome: PayoutStatus) {
    !outcome.Pending? && (status.Pending? || (status.Succeeded? && outcome.Reversed?))
  }

  function SettlePayout(s: State, p: Id, outcome: PayoutStatus): Result<State> {
    if p !in s.payouts then Refused(NotFound)
    else if !MaySettle(s.payouts[p].status, outcome) then Ok(s)
    else
      Ok(s.(payouts := s.payouts[p := s.payouts[p].(status := outcome)],
            items := map i | i in s.items ::
              if s.items[i].payout == p then s.items[i].(status := outcome) else s.items[i]))
  }
}
