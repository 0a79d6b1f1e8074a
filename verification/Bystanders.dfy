/**
 * What every transaction other than an admin's refund or payout approval leaves alone: it makes no
 * payout item, and no refund but the automatic one of money it orphans. So nothing such a transaction
 * does can upset a refund or an approval that is under way.
 */
module Bystanders {
  import opened Rows
  import opened Sums
  import opened Money
  import Stock
  import opened Sourcing
  import SourcingProofs
  import Orders
  import Checkouts
  import Payments
  import opened Refunds
  import opened Payouts
  import opened Invariants
  import opened Evolution
  import opened Runs

  ghost predicate Bystands(s: State, t: State) {
    && t.items.Keys == s.items.Keys
    && (forall r | r in t.refunds && r !in s.refunds :: t.refunds[r].automatic)
  }

  predicate Contends(e: Event) {
    e.Money? && (e.money.Refund? || e.money.Approve?)
  }

  predicate SameMoney(s: State, t: State) {
    t.refunds == s.refunds && t.items == s.items
  }

  lemma SyncSame(s: State, r: Option<Id>)
    ensures SameMoney(s, Sync(s, r))
  {
    hide Sync;
    SourcingProofs.SyncTouchesStatusOnly(s, r);
  }

  lemma PlaceSame(s: State, config: Config, draft: Checkouts.Draft, lines: seq<Checkouts.Line>, request: Option<Id>,
                  now: int, lost: Error)
    requires Checkouts.Place(s, config, draft, lines, request, now, lost).Ok?
    ensures SameMoney(s, Checkouts.Place(s, config, draft, lines, request, now, lost).value)
  {
    hide Checkouts.ReserveAll, Checkouts.AddOrders;
  }

  lemma ReleaseSame(s: State, c: Id, status: CheckoutStatus, r: Option<Id>)
    requires c in s.checkouts
    ensures SameMoney(s, Sync(Checkouts.Release(s, c, status), r))
  {
    hide Sync, Checkouts.Returned, Checkouts.WithOrders, Checkouts.WithoutPending;
    SyncSame(Checkouts.Release(s, c, status), r);
  }

  lemma PlaceSyncSame(s: State, config: Config, draft: Checkouts.Draft, lines: seq<Checkouts.Line>, r: Id, now: int,
                      lost: Error)
    requires Checkouts.Place(s, config, draft, lines, Some(r), now, lost).Ok?
    ensures SameMoney(s, Sync(Checkouts.Place(s, config, draft, lines, Some(r), now, lost).value, Some(r)))
  {
    hide Sync, Checkouts.Place;
    PlaceSame(s, config, draft, lines, Some(r), now, lost);
    SyncSame(Checkouts.Place(s, config, draft, lines, Some(r), now, lost).value, Some(r));
  }

  lemma ConfirmSame(config: Config, s: State, r: Id, draft: Checkouts.Draft, matching: set<Id>, now: int)
    requires Checkouts.ConfirmRequest(s, config, r, draft, matching, now).Ok?
    ensures SameMoney(s, Checkouts.ConfirmRequest(s, config, r, draft, matching, now).value)
  {
    hide Sync, Checkouts.Place, ListingEligible, Checkouts.Selected, Checkouts.HasKey, Checkouts.HasLive, SameMoney;
    var row := s.requests[r];
    if Checkouts.HasKey(s.checkouts, row.buyer, draft.key) {
      MoneyAsItWas(s);
    } else {
      PlaceSyncSame(s, config, draft.(buyer := row.buyer), Checkouts.SortedLines(row.allocations), r, now,
                    ListingNotEligible);
    }
  }

  lemma MoneyAsItWas(s: State)
    ensures SameMoney(s, s)
  {
  }

  lemma PlacingSame(config: Config, s: State, e: ShopEvent)
    requires e.BuyNow? || e.PlaceOrders? || e.ConfirmRequest?
    requires ApplyShop(config, s, e).Ok?
    ensures SameMoney(s, ApplyShop(config, s, e).value)
  {
    hide Checkouts.ConfirmRequest, Checkouts.Place, Checkouts.HasKey, Checkouts.AllOrderable, Checkouts.SortedLines;
    match e
    case BuyNow(draft, line, now) =>
      if !Checkouts.HasKey(s.checkouts, draft.buyer, draft.key) {
        PlaceSame(s, config, draft, [line], None, now, Stock.OrderRefusal(s.listings, s.verified, line.listing));
      }
    case PlaceOrders(draft, now) =>
      if !Checkouts.HasKey(s.checkouts, draft.buyer, draft.key) {
        PlaceSame(s, config, draft, Checkouts.SortedLines(Checkouts.CartOf(s, draft.buyer)), None, now, CartNeedsAttention);
      }
    case ConfirmRequest(r, draft, matching, now) => ConfirmSame(config, s, r, draft, matching, now);
  }

  lemma ReleasingSame(config: Config, s: State, e: ShopEvent)
    requires e.CancelCheckout? || e.Expire? || e.CloseRequest?
    requires ApplyShop(config, s, e).Ok?
    ensures SameMoney(s, ApplyShop(config, s, e).value)
  {
    hide Sync, Checkouts.Release;
    match e
    case CancelCheckout(c, _) => ReleaseSame(s, c, CheckoutStatus.Cancelled, s.checkouts[c].request);
    case Expire(c, _) => ReleaseSame(s, c, Expired, s.checkouts[c].request);
    case CloseRequest(r) =>
      var closed := s.(requests := s.requests[r := s.requests[r].(closed := true)]);
      if exists c | c in s.checkouts :: Checkouts.AwaitingFor(s.checkouts[c], r) {
        forall c | c in s.checkouts && Checkouts.AwaitingFor(s.checkouts[c], r) {
          ReleaseSame(closed, c, CheckoutStatus.Cancelled, Some(r));
        }
      } else {
        SyncSame(closed, Some(r));
      }
  }

  lemma OtherShopSame(config: Config, s: State, e: ShopEvent)
    requires !e.BuyNow? && !e.PlaceOrders? && !e.ConfirmRequest? && !e.CancelCheckout? && !e.Expire? && !e.CloseRequest?
    requires ApplyShop(config, s, e).Ok?
    ensures SameMoney(s, ApplyShop(config, s, e).value)
  {
    hide Sync, Checkouts.Checked, Stock.Edited;
    match e
    case AssignAgent(r, agent, _) =>
      SyncSame(s.(requests := s.requests[r := s.requests[r].(agent := Some(agent))]), Some(r));
    case SaveAllocations(r, lines, matching) =>
      var items := Checkouts.Checked(s, lines, matching).value;
      SyncSame(s.(requests := s.requests[r := s.requests[r].(allocations := items)]), Some(r));
    case _ =>
  }

  lemma MovedSame(s: State, o: Id, row: Rows.Order)
    ensures SameMoney(s, Orders.Moved(s, o, row))
  {
    hide Sync;
    SyncSame(s.(orders := s.orders[o := row]), RequestOf(s, row));
  }

  lemma OrderSame(s: State, e: OrderEvent)
    requires ApplyOrder(s, e).Ok?
    ensures SameMoney(s, ApplyOrder(s, e).value)
  {
    hide Orders.Moved, Stock.ReleaseStock, Stock.Restatused;
    forall t: State, o: Id, row: Rows.Order
      ensures SameMoney(t, Orders.Moved(t, o, row))
    {
      MovedSame(t, o, row);
    }
  }

  lemma SettleSame(s: State, p: Id, r: Option<Id>)
    requires p in s.payments && s.payments[p].checkout in s.checkouts
    ensures SameMoney(s, Sync(Payments.Settle(s, p), r))
  {
    hide Sync, Checkouts.WithOrders;
    SyncSame(Payments.Settle(s, p), r);
  }

  lemma SendBackBystands(s: State, p: Id)
    requires p in s.payments
    ensures Bystands(s, Payments.SendBack(s, p))
  {
    var row := Rows.Refund(p, None, s.payments[p].charged, RefundStatus.Pending, true);
    assert Payments.SendBack(s, p).refunds == s.refunds[s.next := row];
  }

  lemma AttemptFrame(s: State, c: Id, buyer: Id, key: Id, currency: Currency, rate: Option<nat>, now: int)
    requires Payments.Initiate(s, c, buyer, key, currency, rate, now).Ok?
    ensures var t := Payments.Initiate(s, c, buyer, key, currency, rate, now).value;
            SameMoney(s, t) && t.listings == s.listings
  {
    hide Checkouts.WithoutPending, NgnToUsd, Payments.HasAttempt;
  }

  lemma FailFrame(s: State, p: Id)
    requires p in s.payments
    ensures SameMoney(s, Payments.FailPending(s, p)) && Payments.FailPending(s, p).listings == s.listings
  {
    if !s.payments[p].status.Pending? {
      assert Payments.FailPending(s, p) == s;
    } else {
      assert SameMoney(s, s.(payments := s.payments[p := s.payments[p].(status := PaymentStatus.Failed)]));
    }
  }

  lemma ChargeBystands(s: State, charge: Payments.Charge)
    requires Payments.ApplyCharge(s, charge).Ok?
    ensures Bystands(s, Payments.ApplyCharge(s, charge).value)
  {
    hide Sync, Payments.Settle, Payments.SendBack, Payments.FailPending, Payments.Orphan;
    SendBackBystands(s, charge.payment);
    FailFrame(s, charge.payment);
    SettleSame(s, charge.payment, s.checkouts[s.payments[charge.payment].checkout].request);
  }

  lemma RefundFrame(s: State, r: Id, processed: bool)
    requires SettleRefund(s, r, processed).Ok?
    ensures var t := SettleRefund(s, r, processed).value;
            t.items == s.items && t.refunds.Keys == s.refunds.Keys && t.listings == s.listings
  {
    var status := if processed then Processed else RefundStatus.Failed;
    if !s.refunds[r].status.Pending? {
      assert SettleRefund(s, r, processed) == Ok(s);
    } else {
      assert SettleRefund(s, r, processed) == Ok(s.(refunds := s.refunds[r := s.refunds[r].(status := status)]));
    }
  }

  lemma TransferFrame(s: State, p: Id, outcome: PayoutStatus)
    requires SettlePayout(s, p, outcome).Ok?
    ensures var t := SettlePayout(s, p, outcome).value;
            t.items.Keys == s.items.Keys && t.refunds == s.refunds && t.listings == s.listings
  {
    if !MaySettle(s.payouts[p].status, outcome) {
      assert SettlePayout(s, p, outcome) == Ok(s);
    } else {
      var items := map i | i in s.items ::
        if s.items[i].payout == p then s.items[i].(status := outcome) else s.items[i];
      var t := s.(payouts := s.payouts[p := s.payouts[p].(status := outcome)], items := items);
      assert SettlePayout(s, p, outcome) == Ok(t);
    }
  }

  lemma RejectFrame(s: State, ids: set<Id>)
    ensures var t := RejectTransfers(s, ids);
            t.items.Keys == s.items.Keys && t.refunds == s.refunds && t.listings == s.listings
  {
  }

  lemma MoneyBystands(config: Config, s: State, e: MoneyEvent)
    requires !e.Refund? && !e.Approve? && ApplyMoney(config, s, e).Ok?
    ensures Bystands(s, ApplyMoney(config, s, e).value)
  {
    hide Payments.ApplyCharge, Payments.Initiate, Payments.FailPending, SettleRefund, SettlePayout, RejectTransfers;
    match e
    case Initiate(c, buyer, key, currency, rate, now) => AttemptFrame(s, c, buyer, key, currency, rate, now);
    case OpenFailed(p) => FailFrame(s, p);
    case Charged(charge) => ChargeBystands(s, charge);
    case RefundSettled(r, processed) => RefundFrame(s, r, processed);
    case SetAccount(_, _) =>
    case TransfersRejected(ids) => RejectFrame(s, ids);
    case TransferSettled(p, outcome) => TransferFrame(s, p, outcome);
  }

  /** Every event but a refund or an approval stands by. */
  lemma OthersStandBy(config: Config, s: State, e: Event)
    requires !Contends(e)
    ensures Bystands(s, After(config, s, e))
  {
    hide ApplyShop, ApplyOrder, ApplyMoney;
    if Apply(config, s, e).Ok? {
      match e
      case Shop(x) =>
        if x.BuyNow? || x.PlaceOrders? || x.ConfirmRequest? {
          PlacingSame(config, s, x);
        } else if x.CancelCheckout? || x.Expire? || x.CloseRequest? {
          ReleasingSame(config, s, x);
        } else {
          OtherShopSame(config, s, x);
        }
      case Order(x) => OrderSame(s, x);
      case Money(x) => MoneyBystands(config, s, x);
    }
  }
}
