/**
 * What placing leaves behind, row by row: the checkout with each of its fees, and one order a line with
 * the price and the farmer its listing had. The three ways to place a checkout all come down to this.
 */
module Placement {
  import opened Rows
  import opened Sums
  import opened Money
  import Stock
  import opened Sourcing
  import SourcingProofs
  import opened Checkouts
  import opened Invariants
  import opened Evolution
  import opened Runs
  import opened Frames
  import CheckoutProofs
  import StockProofs
  import PaymentProofs
  import Refunds
  import Payouts
  import Solvency
  import Gaining
  import Quote

  // ----- The call behind an event -----

  /** Whose checkout a placing event asks for. */
  function BuyerOf(s: State, e: ShopEvent): Id
    requires Placing(e)
  {
    match e
    case BuyNow(draft, _, _) => draft.buyer
    case PlaceOrders(draft, _) => draft.buyer
    case ConfirmRequest(r, draft, _, _) => if r in s.requests then s.requests[r].buyer else draft.buyer
  }

  /** The lines a placing event asks for. */
  function LinesOf(s: State, e: ShopEvent): seq<Line>
    requires Placing(e)
  {
    match e
    case BuyNow(_, line, _) => [line]
    case PlaceOrders(draft, _) => SortedLines(CartOf(s, draft.buyer))
    case ConfirmRequest(r, _, _, _) => if r in s.requests then SortedLines(s.requests[r].allocations) else []
  }

  function RequestFor(e: ShopEvent): Option<Id>
    requires Placing(e)
  {
    if e.ConfirmRequest? then Some(e.request) else None
  }

  function LostTo(s: State, e: ShopEvent): Error
    requires Placing(e)
  {
    match e
    case BuyNow(_, line, _) => Stock.OrderRefusal(s.listings, s.verified, line.listing)
    case PlaceOrders(_, _) => CartNeedsAttention
    case ConfirmRequest(_, _, _, _) => ListingNotEligible
  }

  /** The key has not been used by the buyer yet. */
  predicate Fresh(s: State, e: ShopEvent)
    requires Placing(e)
  {
    Quote.Unused(s.checkouts, BuyerOf(s, e), e.draft.key)
  }

  // The placement a placing event comes down to.
  function PlaceOf(config: Config, s: State, e: ShopEvent): Result<State>
    requires Placing(e)
  {
    Place(s, config, e.draft.(buyer := BuyerOf(s, e)), LinesOf(s, e), RequestFor(e), e.now, LostTo(s, e))
  }

  predicate MayPlaceFor(s: State, e: ShopEvent)
    requires Placing(e)
  {
    LinesOf(s, e) != [] && forall i | 0 <= i < |LinesOf(s, e)| :: LinesOf(s, e)[i].quantity > 0
  }

  // What the tables of a sale have in common with those of the placement behind it.
  predicate SameSale(t: State, placed: State) {
    t.orders == placed.orders && t.checkouts == placed.checkouts && t.listings == placed.listings && t.next == placed.next
  }

  lemma BuyNowIsPlace(config: Config, s: State, e: ShopEvent)
    requires e.BuyNow? && Fresh(s, e) && ApplyShop(config, s, e).Ok?
    ensures PlaceOf(config, s, e) == ApplyShop(config, s, e) && MayPlaceFor(s, e)
  {
    hide Place, HasKey, Quote.Unused;
    Quote.UnusedIsNew(s.checkouts, e.draft.buyer, e.draft.key);
    assert e.draft.(buyer := e.draft.buyer) == e.draft;
  }

  lemma CartIsPlace(config: Config, s: State, e: ShopEvent)
    requires Inv(s) && e.PlaceOrders? && Fresh(s, e) && ApplyShop(config, s, e).Ok?
    ensures PlaceOf(config, s, e).Ok? && SameSale(ApplyShop(config, s, e).value, PlaceOf(config, s, e).value)
    ensures MayPlaceFor(s, e)
  {
    hide Inv, Place, HasKey, Quote.Unused, AllOrderable, SortedLines;
    Quote.UnusedIsNew(s.checkouts, e.draft.buyer, e.draft.key);
    assert e.draft.(buyer := e.draft.buyer) == e.draft;
    CheckoutProofs.CartPositive(s, e.draft.buyer);
    CheckoutProofs.SortedLinesAre(CartOf(s, e.draft.buyer));
  }

  lemma ConfirmIsPlace(config: Config, s: State, e: ShopEvent)
    requires Inv(s) && e.ConfirmRequest? && Fresh(s, e) && ApplyShop(config, s, e).Ok?
    ensures PlaceOf(config, s, e).Ok? && SameSale(ApplyShop(config, s, e).value, PlaceOf(config, s, e).value)
    ensures MayPlaceFor(s, e)
  {
    hide Inv, Place, HasKey, Quote.Unused, HasLive, Sync, Selected, ListingEligible, SortedLines, KeyOfOther;
    var row := s.requests[e.request];
    Quote.UnusedIsNew(s.checkouts, row.buyer, e.draft.key);
    CheckoutProofs.AllocationsPositive(s, e.request);
    CheckoutProofs.SortedLinesAre(row.allocations);
    Gaining.ConfirmPlaces(s, config, e.request, e.draft, e.matching, e.now);
    SourcingProofs.SyncTouchesStatusOnly(PlaceOf(config, s, e).value, Some(e.request));
  }

  // A placing event with a fresh key that goes through is a placement and, beside it, a cart or status rewrite.
  lemma PlacingIsPlace(config: Config, s: State, e: ShopEvent)
    requires Inv(s) && Placing(e) && Fresh(s, e) && ApplyShop(config, s, e).Ok?
    ensures PlaceOf(config, s, e).Ok? && SameSale(ApplyShop(config, s, e).value, PlaceOf(config, s, e).value)
    ensures MayPlaceFor(s, e)
  {
    hide Inv, PlaceOf, ApplyShop, Fresh, MayPlaceFor;
    if e.BuyNow? {
      BuyNowIsPlace(config, s, e);
    } else if e.PlaceOrders? {
      CartIsPlace(config, s, e);
    } else {
      ConfirmIsPlace(config, s, e);
    }
  }

  lemma StalePlacesNothing(config: Config, s: State, e: ShopEvent)
    requires Placing(e) && !Fresh(s, e)
    ensures ApplyShop(config, s, e).Ok? ==> ApplyShop(config, s, e).value == s
  {
    hide Place, HasKey, Quote.Unused, KeyOfOther;
    Quote.UnusedIsNew(s.checkouts, BuyerOf(s, e), e.draft.key);
  }

  // ----- The rows a placement makes -----

  /** Price times quantity over the lines, at the listings' prices. */
  function Cost(listings: map<Id, Listing>, lines: seq<Line>): nat {
    if lines == [] then 0
    else
      var n := |lines| - 1;
      MulNatural(if lines[n].listing in listings then listings[lines[n].listing].price else 0, lines[n].quantity);
      Cost(listings, lines[..n]) +
      (if lines[n].listing in listings then listings[lines[n].listing].price else 0) * lines[n].quantity
  }

  /** A percentage in basis points, to the nearest minor unit. */
  predicate NearestShare(fee: nat, bps: nat, amount: nat) {
    2 * amount * bps - 10_000 < 2 * fee * 10_000 <= 2 * amount * bps + 10_000
  }

  /** The order a line becomes, from its listing as it was before the call. */
  predicate OrderOfLine(listings: map<Id, Listing>, order: Order, line: Line, buyer: Id, c: Id) {
    && line.listing in listings
    && order.listing == line.listing && order.quantity == line.quantity
    && order.farm == listings[line.listing].farm && order.farmer == listings[line.listing].farmer
    && order.total == listings[line.listing].price * line.quantity
    && order.buyer == buyer && order.checkout == Some(c) && order.status.AwaitingPayment?
    && order.fulfilledAt.None? && order.checklist.None? && order.handover.None?
  }

  lemma {:induction false} ReservedLines(listings: map<Id, Listing>, verified: set<Id>, lines: seq<Line>)
    requires ReserveAll(listings, verified, lines).Some?
    ensures var r := ReserveAll(listings, verified, lines).value;
            && r.listings.Keys == listings.Keys
            && (forall l | l in listings ::
                  r.listings[l] == listings[l].(floating := r.listings[l].floating, status := r.listings[l].status))
            && (forall i | 0 <= i < |lines| ::
                  lines[i].listing in listings &&
                  r.lines[i] == OrderLine(lines[i].listing, listings[lines[i].listing].farm,
                                          listings[lines[i].listing].farmer, lines[i].quantity,
                                          listings[lines[i].listing].price * lines[i].quantity))
  {
    if lines != [] {
      var n := |lines| - 1;
      ReservedLines(listings, verified, lines[..n]);
      var before := ReserveAll(listings, verified, lines[..n]).value;
      var r := ReserveAll(listings, verified, lines).value;
      forall i | 0 <= i < n
        ensures r.lines[i] == before.lines[i] && lines[..n][i] == lines[i]
      {
      }
    }
  }

  lemma {:induction false} SubtotalIsCost(listings: map<Id, Listing>, lines: seq<Line>, taken: seq<OrderLine>)
    requires |taken| == |lines|
    requires forall i | 0 <= i < |lines| ::
               lines[i].listing in listings && taken[i].total == listings[lines[i].listing].price * lines[i].quantity
    ensures Subtotal(taken) == Cost(listings, lines)
  {
    if lines != [] {
      var n := |lines| - 1;
      assert forall i | 0 <= i < n :: lines[..n][i] == lines[i] && taken[..n][i] == taken[i];
      SubtotalIsCost(listings, lines[..n], taken[..n]);
    }
  }

  /** The checkout a placement makes, field by field. */
  predicate CheckoutOfLines(config: Config, listings: map<Id, Listing>, row: Checkout, lines: seq<Line>, buyer: Id,
                            key: Id, request: Option<Id>, now: int)
  {
    && row.buyer == buyer && row.key == key && row.status.AwaitingPayment? && row.request == request
    && row.subtotal == Cost(listings, lines)
    && row.deliveryFee == config.deliveryFee
    && NearestShare(row.serviceFee, config.serviceFeeBps, row.subtotal)
    && row.total == row.subtotal + row.deliveryFee + row.serviceFee
    && row.expiresAt == now + config.holdMs
  }

  lemma FeeIsNearest(amount: nat, bps: nat)
    ensures NearestShare(PercentOf(amount, bps), bps, amount)
  {
  }

  lemma PlaceMakes(s: State, config: Config, draft: Draft, lines: seq<Line>, request: Option<Id>, now: int, lost: Error)
    requires Place(s, config, draft, lines, request, now, lost).Ok? && (forall o | o in s.orders :: o < s.next)
    ensures var t := Place(s, config, draft, lines, request, now, lost).value;
            && s.next in t.checkouts && t.checkouts == s.checkouts[s.next := t.checkouts[s.next]]
            && CheckoutOfLines(config, s.listings, t.checkouts[s.next], lines, draft.buyer, draft.key, request, now)
            && (forall o | o in s.orders :: o in t.orders && t.orders[o] == s.orders[o])
            && (forall o: Id :: o in t.orders && o !in s.orders <==> s.next < o <= s.next + |lines|)
            && (forall o | o in t.orders && o !in s.orders ::
                  OrderOfLine(s.listings, t.orders[o], lines[o - s.next - 1], draft.buyer, s.next))
            && t.next == s.next + 1 + |lines|
  {
    hide ReserveAll, PercentOf, Cost, NearestShare, AddOrders, Subtotal;
    var reserved := ReserveAll(s.listings, s.verified, lines).value;
    ReservedLines(s.listings, s.verified, lines);
    SubtotalIsCost(s.listings, lines, reserved.lines);
    FeeIsNearest(Subtotal(reserved.lines), config.serviceFeeBps);
    AddedAll(s.orders, reserved.lines, s.next, draft.buyer, s.next + 1);
    StockProofs.AddedIds(s.orders, reserved.lines, s.next, draft.buyer, s.next + 1);
  }

  lemma {:induction false} AddedAll(orders: map<Id, Order>, lines: seq<OrderLine>, c: Id, buyer: Id, first: Id)
    ensures forall o: Id | first <= o < first + |lines| :: o in AddOrders(orders, lines, c, buyer, first)
  {
    if lines != [] {
      AddedAll(orders, lines[..|lines| - 1], c, buyer, first);
    }
  }

  /**
   * A cart checkout, a direct purchase or a confirmed selection, with a key its buyer has not used, makes one
   * checkout with exactly the configured delivery fee, the service fee on its goods and their price before the
   * call, and for each line an order of the listing's own farmer at the listing's price.
   */
  lemma PlacementMakes(config: Config, s: State, e: ShopEvent)
    requires Reachable(config, s) && Placing(e) && Fresh(s, e) && ApplyShop(config, s, e).Ok?
    ensures var t, c, lines := ApplyShop(config, s, e).value, s.next, LinesOf(s, e);
            && c !in s.checkouts && c in t.checkouts && t.checkouts == s.checkouts[c := t.checkouts[c]]
            && CheckoutOfLines(config, s.listings, t.checkouts[c], lines, BuyerOf(s, e), e.draft.key, RequestFor(e), e.now)
            && (forall o | o in s.orders :: o in t.orders && t.orders[o] == s.orders[o])
            && (forall o: Id :: o in t.orders && o !in s.orders <==> c < o <= c + |lines|)
            && (forall o | o in t.orders && o !in s.orders ::
                  OrderOfLine(s.listings, t.orders[o], lines[o - c - 1], BuyerOf(s, e), c))
  {
    hide Reachable, Inv, ApplyShop, Place, Fresh, BuyerOf, LinesOf, RequestFor, LostTo, CheckoutOfLines, OrderOfLine;
    hide MayPlaceFor;
    ReachableOk(config, s);
    PlacingIsPlace(config, s, e);
    FreshIds(s);
    PlaceMakes(s, config, e.draft.(buyer := BuyerOf(s, e)), LinesOf(s, e), RequestFor(e), e.now, LostTo(s, e));
  }

  lemma FreshIds(s: State)
    requires Inv(s)
    ensures s.next !in s.checkouts && forall o | o in s.orders :: o < s.next
  {
    hide Stock.StockOk, CheckoutsOk, HandoversOk, ReadsOk, PaymentsOk, RefundsOk, PayoutsOk, Excluded, RequestRefs;
    hide SyncedBut, CartsOk;
  }

  // ----- The fees in every run -----

  /** Every checkout was charged the configured delivery fee, and the configured percentage of its goods. */
  ghost predicate FeesOk(config: Config, checkouts: map<Id, Checkout>) {
    forall c | c in checkouts ::
      checkouts[c].deliveryFee == config.deliveryFee &&
      NearestShare(checkouts[c].serviceFee, config.serviceFeeBps, checkouts[c].subtotal)
  }

  lemma FeesKept(config: Config, before: map<Id, Checkout>, after: map<Id, Checkout>)
    requires FeesOk(config, before) && CheckoutsEvolve(before, after) && after.Keys == before.Keys
    ensures FeesOk(config, after)
  {
    hide NearestShare;
  }

  lemma StepFees(config: Config, s: State, e: Event)
    requires Inv(s) && FeesOk(config, s.checkouts)
    ensures FeesOk(config, After(config, s, e).checkouts)
  {
    hide Inv, ApplyShop, ApplyOrder, ApplyMoney, NearestShare, Fresh, PlaceOf, BuyerOf, LinesOf;
    hide OrdersEvolve, CheckoutsEvolve, PaymentsEvolve, RefundsEvolve, PayoutsEvolve, ItemsEvolve, RequestsEvolve;
    StepKeeps(config, s, e);
    if e.Shop? && Placing(e.shop) {
      PlacingFees(config, s, e.shop);
    } else {
      Gaining.OthersMakeNone(config, s, e);
      FeesKept(config, s.checkouts, After(config, s, e).checkouts);
    }
  }

  lemma PlacingFees(config: Config, s: State, e: ShopEvent)
    requires Inv(s) && FeesOk(config, s.checkouts) && Placing(e)
    ensures FeesOk(config, After(config, s, Shop(e)).checkouts)
  {
    hide Inv, ApplyShop, NearestShare, Fresh, BuyerOf, LinesOf, LostTo, RequestFor, Place, OrderOfLine, Cost;
    if ApplyShop(config, s, e).Ok? {
      if Fresh(s, e) {
        PlacingIsPlace(config, s, e);
        FreshIds(s);
        PlaceMakes(s, config, e.draft.(buyer := BuyerOf(s, e)), LinesOf(s, e), RequestFor(e), e.now, LostTo(s, e));
      } else {
        StalePlacesNothing(config, s, e);
      }
    }
  }

  lemma {:induction false} RunFees(config: Config, s: State, events: seq<Event>)
    requires Inv(s) && FeesOk(config, s.checkouts)
    ensures FeesOk(config, Run(config, s, events).checkouts)
  {
    hide Inv, FeesOk, After;
    if events != [] {
      var n := |events| - 1;
      RunFees(config, s, events[..n]);
      RunKeeps(config, s, events[..n]);
      StepFees(config, Run(config, s, events[..n]), events[n]);
    }
  }

  /** In every reachable state each checkout's fees are the configured ones. */
  lemma FeesAreConfigured(config: Config, s: State)
    requires Reachable(config, s)
    ensures FeesOk(config, s.checkouts)
  {
    hide Inv, NearestShare, Run;
    var start, events :| Legacy(start) && s == Run(config, start, events);
    LegacyOk(start);
    RunFees(config, start, events);
  }

  // ----- What a refund of one order gives back -----

  lemma DivisionIs(n: int, d: int, q: int)
    requires d > 0 && q * d <= n < q * d + d
    ensures n / d == q
  {
    var r := n - n / d * d;
    assert n == n / d * d + r && 0 <= r < d;
    MultiplesApart(q, n / d, d);
    MultiplesApart(n / d, q, d);
  }

  // Where the charge is the total itself, a share is the price and the price's part of the fee.
  lemma ShareInFull(price: nat, fee: nat, subtotal: nat, total: nat)
    requires subtotal > 0 && total > 0
    ensures OrderShare(price, fee, subtotal, total, total) == price + price * fee / subtotal
  {
    MulPositive(subtotal, total);
    MulNatural(price, fee);
    MulNatural(price, subtotal + fee);
    var part := price * fee / subtotal;
    var q := price + part;
    var n := price * (subtotal + fee);
    assert price * fee == part * subtotal + price * fee % subtotal;
    assert n == price * subtotal + price * fee;
    assert q * subtotal == price * subtotal + part * subtotal;
    ScaledUp(q, subtotal, n, total);
    DivisionIs(n * total, subtotal * total, q);
  }

  lemma ScaledUp(q: int, d: int, n: int, factor: int)
    requires factor > 0 && q * d <= n < q * d + d
    ensures q * (d * factor) <= n * factor < q * (d * factor) + d * factor
  {
    MulMonotone(q * d, n, factor);
    MulMonotone(n + 1, (q + 1) * d, factor);
    assert (n + 1) * factor == n * factor + factor;
    assert (q + 1) * d * factor == q * (d * factor) + d * factor;
    assert q * d * factor == q * (d * factor);
  }

  /**
   * Refunding a cancelled order of a checkout paid in naira gives back the order's price and the price's part
   * of the service fee, rounded down to a whole kobo, and nothing of the delivery fee. That fee, and the
   * percentage the service fee comes to, are the configured ones.
   */
  lemma NairaRefundIs(config: Config, s: State, p: Id, o: Id)
    requires Reachable(config, s) && p in s.payments && s.payments[p].status.Succeeded? && s.payments[p].currency.Ngn?
    requires !Payouts.WholeRefund(s.payments, s.refunds, s.payments[p].checkout) && Solvency.Refundable(s, p, o)
    ensures s.payments[p].checkout in s.checkouts
    ensures var row := s.checkouts[s.payments[p].checkout];
            && row.deliveryFee == config.deliveryFee
            && NearestShare(row.serviceFee, config.serviceFeeBps, row.subtotal)
            && s.payments[p].charged == row.subtotal + row.deliveryFee + row.serviceFee && row.subtotal > 0
            && Refunds.RefundStep(s, p, Some(o)).Ok?
            && var t := Refunds.RefundStep(s, p, Some(o)).value;
            && s.next !in s.refunds && s.next in t.refunds && t.refunds == s.refunds[s.next := t.refunds[s.next]]
            && t.refunds[s.next].payment == p && t.refunds[s.next].order == Some(o) && !t.refunds[s.next].automatic
            && t.refunds[s.next].amount == s.orders[o].total + s.orders[o].total * row.serviceFee / row.subtotal
  {
    hide Reachable, Inv, Refunds.Remaining, Payouts.WholeRefund, OrderShare, NearestShare, Refunds.RefundedOn;
    hide PaymentsOk, RefundsOk, PayoutsOk, Excluded, CheckoutsOk;
    ReachableOk(config, s);
    FeesAreConfigured(config, s);
    Solvency.Tables(s, p);
    Solvency.OrderRefundsFit(config, s, p, o);
    Solvency.RefundsFresh(s);
    NairaChargesTotal(s, p);
    TotalAddsUp(s, s.payments[p].checkout);
    var row := s.checkouts[s.payments[p].checkout];
    ShareInFull(s.orders[o].total, row.serviceFee, row.subtotal, s.payments[p].amount);
  }

  /**
   * In either currency, refunding an order gives back the greatest whole number of minor units within the order's
   * part of the charge: its price, with the price's part of the service fee, at the rate of the charge to the total.
   */
  lemma OrderRefundIs(config: Config, s: State, p: Id, o: Id)
    requires Reachable(config, s) && Refunds.RefundStep(s, p, Some(o)).Ok?
    ensures p in s.payments && o in s.orders && s.payments[p].checkout in s.checkouts
    ensures var row, charged, t := s.checkouts[s.payments[p].checkout], s.payments[p].charged, Refunds.RefundStep(s, p, Some(o)).value;
            && s.next !in s.refunds && s.next in t.refunds && t.refunds == s.refunds[s.next := t.refunds[s.next]]
            && t.refunds[s.next].payment == p && t.refunds[s.next].order == Some(o) && t.refunds[s.next].status.Pending?
            && var amount, part := t.refunds[s.next].amount, s.orders[o].total * (row.subtotal + row.serviceFee);
            amount * (row.subtotal * row.total) <= part * charged < (amount + 1) * (row.subtotal * row.total)
  {
    hide Reachable, Inv, Refunds.Remaining, OrderShare, Refunds.RefundedOn;
    ReachableOk(config, s);
    Solvency.RefundsFresh(s);
    PaysTotal(s, p);
    var row := s.checkouts[s.payments[p].checkout];
    ShareIsGreatest(s.orders[o].total, row.serviceFee, row.subtotal, s.payments[p].amount, s.payments[p].charged);
  }

  lemma PaysTotal(s: State, p: Id)
    requires Inv(s) && p in s.payments && s.payments[p].checkout in s.checkouts
    ensures s.payments[p].amount == s.checkouts[s.payments[p].checkout].total
  {
    hide Inv, PaymentsOk, PaidFor;
    PaymentProofs.PaymentTables(s);
    assert PaymentFits(s.checkouts, s.payments[p]) by { PaymentsFit(s, p); }
  }

  lemma PaymentsFit(s: State, p: Id)
    requires PaymentsOk(s.checkouts, s.payments) && p in s.payments
    ensures PaymentFits(s.checkouts, s.payments[p])
  {
    hide PaymentFits, PaidFor;
  }

  lemma ShareIsGreatest(price: nat, fee: nat, subtotal: nat, total: nat, charged: nat)
    requires subtotal > 0 && total > 0
    ensures var amount := OrderShare(price, fee, subtotal, total, charged);
            amount * (subtotal * total) <= price * (subtotal + fee) * charged < (amount + 1) * (subtotal * total)
  {
    MulPositive(subtotal, total);
    var n, d := price * (subtotal + fee) * charged, subtotal * total;
    assert n == n / d * d + n % d && 0 <= n % d < d;
    assert (n / d + 1) * d == n / d * d + d;
  }

  lemma NairaChargesTotal(s: State, p: Id)
    requires PaymentsOk(s.checkouts, s.payments) && p in s.payments && s.payments[p].currency.Ngn?
    ensures s.payments[p].charged == s.payments[p].amount
  {
    hide PaidFor;
    assert PaymentFits(s.checkouts, s.payments[p]);
  }

  lemma TotalAddsUp(s: State, c: Id)
    requires CheckoutsOk(s.checkouts, s.orders) && c in s.checkouts
    ensures s.checkouts[c].total == s.checkouts[c].subtotal + s.checkouts[c].deliveryFee + s.checkouts[c].serviceFee
  {
  }
}
