/** Which tables each event leaves alone. */
module Frames {
  import opened Rows
  import opened Sourcing
  import SourcingProofs
  import Stock
  import Orders
  import Checkouts
  import Payments
  import Refunds
  import Payouts
  import opened Runs

  predicate Placing(e: ShopEvent) {
    e.BuyNow? || e.PlaceOrders? || e.ConfirmRequest?
  }

  predicate Ending(e: ShopEvent) {
    e.CancelCheckout? || e.Expire? || e.CloseRequest?
  }

  predicate SameRefunds(s: State, t: State) {
    t.refunds == s.refunds && t.accounts == s.accounts
  }

  predicate SamePayouts(s: State, t: State) {
    t.payouts == s.payouts && t.items == s.items
  }

  predicate SameSales(s: State, t: State) {
    t.orders == s.orders && t.checkouts == s.checkouts
  }

  // Listings, farms, carts and requests, and what sessions have read.
  predicate SameShop(s: State, t: State) {
    && t.listings == s.listings && t.listingReads == s.listingReads && t.orderReads == s.orderReads
    && t.verified == s.verified && t.clusters == s.clusters && t.carts == s.carts
  }

  /** What an event of the shop leaves alone. */
  ghost predicate ShopWrites(s: State, t: State, e: ShopEvent) {
    && SameRefunds(s, t) && SamePayouts(s, t) && t.verified == s.verified && t.clusters == s.clusters
    && t.orderReads == s.orderReads
    && (!Ending(e) ==> t.payments == s.payments)
    && (!Ending(e) && !Placing(e) ==> SameSales(s, t))
    && (Ending(e) || Placing(e) ==> t.listingReads == s.listingReads)
    && (Ending(e) ==> t.carts == s.carts)
  }

  /** What an event of an order leaves alone. */
  ghost predicate OrderWrites(s: State, t: State) {
    && SameRefunds(s, t) && SamePayouts(s, t) && t.payments == s.payments && t.checkouts == s.checkouts
    && t.carts == s.carts && t.listingReads == s.listingReads
  }

  /** What an event of money leaves alone. */
  ghost predicate MoneyWrites(s: State, t: State, e: MoneyEvent) {
    && SameShop(s, t)
    && (!e.Charged? ==> SameSales(s, t) && t.requests == s.requests)
    && (!e.Charged? && !e.Initiate? && !e.OpenFailed? ==> t.payments == s.payments)
    && (!e.Charged? && !e.Refund? && !e.RefundSettled? ==> t.refunds == s.refunds)
    && (!e.SetAccount? ==> t.accounts == s.accounts)
    && (!e.Approve? && !e.TransfersRejected? && !e.TransferSettled? ==> SamePayouts(s, t))
  }

  ghost predicate Writes(s: State, t: State, e: Event) {
    match e
    case Shop(x) => ShopWrites(s, t, x)
    case Order(_) => OrderWrites(s, t)
    case Money(x) => MoneyWrites(s, t, x)
  }

  // ----- The shop -----

  lemma PlaceWrites(s: State, config: Config, draft: Checkouts.Draft, lines: seq<Checkouts.Line>, request: Option<Id>,
                    now: int, lost: Error)
    requires Checkouts.Place(s, config, draft, lines, request, now, lost).Ok?
    ensures var t := Checkouts.Place(s, config, draft, lines, request, now, lost).value;
            && SameRefunds(s, t) && SamePayouts(s, t) && t.payments == s.payments && t.verified == s.verified
            && t.clusters == s.clusters && t.orderReads == s.orderReads && t.listingReads == s.listingReads
  {
    hide Checkouts.ReserveAll, Checkouts.AddOrders, Checkouts.Subtotal, Checkouts.GrandTotal;
  }

  lemma PlacingWrites(config: Config, s: State, e: ShopEvent)
    requires Placing(e) && ApplyShop(config, s, e).Ok?
    ensures ShopWrites(s, ApplyShop(config, s, e).value, e)
  {
    hide Sync, Checkouts.Place, Checkouts.HasKey, Checkouts.HasLive, Checkouts.AllOrderable, ListingEligible;
    hide Checkouts.Selected, Checkouts.SortedLines, Checkouts.KeyOfOther;
    match e
    case BuyNow(draft, line, now) =>
      if !Checkouts.HasKey(s.checkouts, draft.buyer, draft.key) {
        PlaceWrites(s, config, draft, [line], None, now, Stock.OrderRefusal(s.listings, s.verified, line.listing));
      }
    case PlaceOrders(draft, now) =>
      if !Checkouts.HasKey(s.checkouts, draft.buyer, draft.key) {
        PlaceWrites(s, config, draft, Checkouts.SortedLines(Checkouts.CartOf(s, draft.buyer)), None, now, CartNeedsAttention);
      }
    case ConfirmRequest(r, draft, _, now) =>
      var row := s.requests[r];
      if !Checkouts.HasKey(s.checkouts, row.buyer, draft.key) {
        var lines, mine := Checkouts.SortedLines(row.allocations), draft.(buyer := row.buyer);
        PlaceWrites(s, config, mine, lines, Some(r), now, ListingNotEligible);
        SourcingProofs.SyncTouchesStatusOnly(
          Checkouts.Place(s, config, mine, lines, Some(r), now, ListingNotEligible).value, Some(r));
      }
  }

  lemma ReleaseWrites(s: State, c: Id, status: CheckoutStatus, r: Option<Id>)
    requires c in s.checkouts
    ensures var t := Sync(Checkouts.Release(s, c, status), r);
            && SameRefunds(s, t) && SamePayouts(s, t) && t.verified == s.verified && t.clusters == s.clusters
            && t.orderReads == s.orderReads && t.listingReads == s.listingReads && t.carts == s.carts
  {
    hide Sync, Checkouts.Returned, Checkouts.WithOrders, Checkouts.WithoutPending;
    SourcingProofs.SyncTouchesStatusOnly(Checkouts.Release(s, c, status), r);
  }

  lemma EndingWrites(config: Config, s: State, e: ShopEvent)
    requires Ending(e) && ApplyShop(config, s, e).Ok?
    ensures ShopWrites(s, ApplyShop(config, s, e).value, e)
  {
    hide Sync, Checkouts.Release;
    match e
    case CancelCheckout(c, _) => ReleaseWrites(s, c, CheckoutStatus.Cancelled, s.checkouts[c].request);
    case Expire(c, _) => ReleaseWrites(s, c, Expired, s.checkouts[c].request);
    case CloseRequest(r) =>
      var closed := s.(requests := s.requests[r := s.requests[r].(closed := true)]);
      if exists c | c in s.checkouts :: Checkouts.AwaitingFor(s.checkouts[c], r) {
        forall c | c in s.checkouts && Checkouts.AwaitingFor(s.checkouts[c], r) {
          ReleaseWrites(closed, c, CheckoutStatus.Cancelled, Some(r));
        }
      } else {
        SourcingProofs.SyncTouchesStatusOnly(closed, Some(r));
      }
  }

  lemma OtherShopWrites(config: Config, s: State, e: ShopEvent)
    requires !Placing(e) && !Ending(e) && ApplyShop(config, s, e).Ok?
    ensures ShopWrites(s, ApplyShop(config, s, e).value, e)
  {
    hide Sync, Checkouts.Checked, Stock.Edited;
    match e
    case AssignAgent(r, agent, _) =>
      SourcingProofs.SyncTouchesStatusOnly(s.(requests := s.requests[r := s.requests[r].(agent := Some(agent))]), Some(r));
    case SaveAllocations(r, lines, matching) =>
      var items := Checkouts.Checked(s, lines, matching).value;
      SourcingProofs.SyncTouchesStatusOnly(s.(requests := s.requests[r := s.requests[r].(allocations := items)]), Some(r));
    case _ =>
  }

  // ----- Orders -----

  lemma MovedWrites(s: State, o: Id, row: Rows.Order)
    ensures var t := Orders.Moved(s, o, row);
            OrderWrites(s, t) && t.orders == s.orders[o := row] && t.listings == s.listings
  {
    hide Sync;
    SourcingProofs.SyncTouchesStatusOnly(s.(orders := s.orders[o := row]), RequestOf(s, row));
  }

  lemma OrderEventWrites(s: State, e: OrderEvent)
    requires ApplyOrder(s, e).Ok?
    ensures OrderWrites(s, ApplyOrder(s, e).value)
  {
    hide Orders.Moved, Stock.ReleaseStock, Stock.Restatused;
    forall t: State, o: Id, row: Rows.Order
      ensures OrderWrites(t, Orders.Moved(t, o, row))
    {
      MovedWrites(t, o, row);
    }
  }

  // ----- Money -----

  lemma SettleWrites(s: State, p: Id, r: Option<Id>)
    requires p in s.payments && s.payments[p].checkout in s.checkouts
    ensures var t := Sync(Payments.Settle(s, p), r);
            SameShop(s, t) && SameRefunds(s, t) && SamePayouts(s, t)
  {
    hide Sync, Checkouts.WithOrders;
    SourcingProofs.SyncTouchesStatusOnly(Payments.Settle(s, p), r);
  }

  lemma SentBackWrites(s: State, p: Id)
    requires p in s.payments
    ensures var t := Payments.SendBack(s, p); SameShop(s, t) && SamePayouts(s, t) && t.accounts == s.accounts
  {
    var row := Rows.Refund.Refund(p, None, s.payments[p].charged, RefundStatus.Pending, true);
    assert Payments.SendBack(s, p) == s.(payments := s.payments[p := s.payments[p].(status := PaymentStatus.Orphaned)],
                                         refunds := s.refunds[s.next := row], next := s.next + 1);
  }

  lemma OnlyPayments(s: State, payments: map<Id, Payment>)
    ensures var t := s.(payments := payments);
            && SameShop(s, t) && SamePayouts(s, t) && SameRefunds(s, t) && SameSales(s, t) && t.requests == s.requests
  {
  }

  lemma FailedWrites(s: State, p: Id)
    requires p in s.payments
    ensures var t := Payments.FailPending(s, p);
            && SameShop(s, t) && SamePayouts(s, t) && SameRefunds(s, t) && SameSales(s, t) && t.requests == s.requests
  {
    hide SameShop, SamePayouts, SameRefunds, SameSales;
    OnlyPayments(s, s.payments[p := s.payments[p].(status := PaymentStatus.Failed)]);
    OnlyPayments(s, s.payments);
  }

  lemma ChargeWrites(s: State, charge: Payments.Charge)
    requires Payments.ApplyCharge(s, charge).Ok?
    ensures MoneyWrites(s, Payments.ApplyCharge(s, charge).value, Charged(charge))
  {
    hide Sync, Payments.Orphan, Payments.Settle, Payments.SendBack, Payments.FailPending;
    var p := charge.payment;
    SentBackWrites(s, p);
    FailedWrites(s, p);
    SettleWrites(s, p, s.checkouts[s.payments[p].checkout].request);
  }

  lemma ApproveOneWrites(config: Config, s: State, farmer: Id, now: int)
    ensures var t := Payouts.ApproveOne(s, config, farmer, now);
            && SameShop(s, t) && SameRefunds(s, t) && SameSales(s, t) && t.payments == s.payments
            && t.requests == s.requests
  {
    hide Payouts.Due, Payouts.Total, Payouts.NewItems;
    var due := Payouts.Due(s, config, farmer, now);
    if due == map[] {
      assert Payouts.ApproveOne(s, config, farmer, now) == s;
    } else {
      assert Payouts.ApproveOne(s, config, farmer, now) == Payouts.PaidOut(s, farmer, due);
    }
  }

  lemma {:induction false} ApproveWrites(config: Config, s: State, farmers: seq<Id>, now: int)
    ensures var t := Payouts.Approve(s, config, farmers, now);
            && SameShop(s, t) && SameRefunds(s, t) && SameSales(s, t) && t.payments == s.payments
            && t.requests == s.requests
  {
    hide Payouts.ApproveOne;
    if farmers != [] {
      var n := |farmers| - 1;
      ApproveWrites(config, s, farmers[..n], now);
      ApproveOneWrites(config, Payouts.Approve(s, config, farmers[..n], now), farmers[n], now);
    }
  }

  lemma ApproveEventWrites(config: Config, s: State, farmers: seq<Id>, now: int)
    ensures MoneyWrites(s, Payouts.Approve(s, config, farmers, now), Approve(farmers, now))
  {
    hide Payouts.Approve;
    ApproveWrites(config, s, farmers, now);
  }

  lemma RefundWrites(s: State, p: Id, order: Option<Id>)
    requires Refunds.RefundStep(s, p, order).Ok?
    ensures MoneyWrites(s, Refunds.RefundStep(s, p, order).value, MoneyEvent.Refund(p, order))
  {
    hide Refunds.OrderAmount, Refunds.LiveItemOn, Refunds.Remaining;
  }

  lemma AttemptWrites(s: State, c: Id, buyer: Id, key: Id, currency: Currency, rate: Option<nat>, now: int)
    requires Payments.Initiate(s, c, buyer, key, currency, rate, now).Ok?
    ensures MoneyWrites(s, Payments.Initiate(s, c, buyer, key, currency, rate, now).value,
                        Initiate(c, buyer, key, currency, rate, now))
  {
    hide Checkouts.WithoutPending, Payments.HasAttempt;
    var t := Payments.Initiate(s, c, buyer, key, currency, rate, now).value;
    if Payments.HasAttempt(s.payments, c, key) {
      assert t == s;
    } else {
      assert t == s.(payments := t.payments, next := t.next);
    }
  }

  lemma OnlyRefunds(s: State, refunds: map<Id, Refund>, r: Id, processed: bool)
    ensures MoneyWrites(s, s.(refunds := refunds), RefundSettled(r, processed))
  {
  }

  lemma RefundResultWrites(s: State, r: Id, processed: bool)
    requires Refunds.SettleRefund(s, r, processed).Ok?
    ensures MoneyWrites(s, Refunds.SettleRefund(s, r, processed).value, RefundSettled(r, processed))
  {
    hide MoneyWrites;
    var status := if processed then Processed else RefundStatus.Failed;
    OnlyRefunds(s, s.refunds[r := s.refunds[r].(status := status)], r, processed);
    OnlyRefunds(s, s.refunds, r, processed);
  }

  lemma TransferWrites(s: State, p: Id, outcome: PayoutStatus)
    requires Payouts.SettlePayout(s, p, outcome).Ok?
    ensures MoneyWrites(s, Payouts.SettlePayout(s, p, outcome).value, TransferSettled(p, outcome))
  {
    hide MoneyWrites, Payouts.SettlePayout;
    var t := Payouts.SettlePayout(s, p, outcome).value;
    SettledOnly(s, p, outcome);
    OnlyPayouts(s, t.payouts, t.items, p, outcome);
  }

  lemma SettledOnly(s: State, p: Id, outcome: PayoutStatus)
    requires Payouts.SettlePayout(s, p, outcome).Ok?
    ensures var t := Payouts.SettlePayout(s, p, outcome).value; t == s.(payouts := t.payouts, items := t.items)
  {
  }

  lemma OnlyPayouts(s: State, payouts: map<Id, Payout>, items: map<(Id, Id), Item>, p: Id, outcome: PayoutStatus)
    ensures MoneyWrites(s, s.(payouts := payouts, items := items), TransferSettled(p, outcome))
  {
  }

  lemma OtherMoneyWrites(s: State, farmer: Id, heldUntil: int, ids: set<Id>)
    ensures MoneyWrites(s, s.(accounts := s.accounts[farmer := heldUntil]), SetAccount(farmer, heldUntil))
    ensures MoneyWrites(s, Payouts.RejectTransfers(s, ids), TransfersRejected(ids))
  {
    hide Payouts.FailedPayouts, Payouts.FailedItems;
  }

  lemma OpenFailedWrites(s: State, p: Id)
    requires p in s.payments
    ensures MoneyWrites(s, Payments.FailPending(s, p), OpenFailed(p))
  {
    hide Payments.FailPending, SameShop, SamePayouts, SameSales;
    FailedWrites(s, p);
  }

  lemma MoneyEventWrites(config: Config, s: State, e: MoneyEvent)
    requires ApplyMoney(config, s, e).Ok?
    ensures MoneyWrites(s, ApplyMoney(config, s, e).value, e)
  {
    hide Payments.ApplyCharge, Payments.Initiate, Payments.FailPending, Payouts.Approve, Refunds.RefundStep;
    hide Payouts.RejectTransfers, Refunds.SettleRefund, Payouts.SettlePayout, SameShop, SameSales, SameRefunds, SamePayouts;
    match e
    case Initiate(c, buyer, key, currency, rate, now) => AttemptWrites(s, c, buyer, key, currency, rate, now);
    case OpenFailed(p) => OpenFailedWrites(s, p);
    case Charged(charge) => ChargeWrites(s, charge);
    case Refund(p, order) => RefundWrites(s, p, order);
    case RefundSettled(r, processed) => RefundResultWrites(s, r, processed);
    case SetAccount(farmer, heldUntil) => OtherMoneyWrites(s, farmer, heldUntil, {});
    case Approve(farmers, now) => ApproveEventWrites(config, s, farmers, now);
    case TransfersRejected(ids) => OtherMoneyWrites(s, 0, 0, ids);
    case TransferSettled(p, outcome) => TransferWrites(s, p, outcome);
  }

  /** Every event leaves alone the tables that are not its own. */
  lemma EventWrites(config: Config, s: State, e: Event)
    ensures Writes(s, After(config, s, e), e)
  {
    hide ApplyShop, ApplyOrder, ApplyMoney;
    if Apply(config, s, e).Ok? {
      match e
      case Shop(x) =>
        if Placing(x) {
          PlacingWrites(config, s, x);
        } else if Ending(x) {
          EndingWrites(config, s, x);
        } else {
          OtherShopWrites(config, s, x);
        }
      case Order(x) => OrderEventWrites(s, x);
      case Money(x) => MoneyEventWrites(config, s, x);
    }
  }
}
