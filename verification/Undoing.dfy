/**
 * What placing a checkout takes, and that ending the checkout unpaid undoes it: the orders hold
 * exactly what was asked for, and every listing gets back the row it had.
 */
module Undoing {
  import opened Rows
  import opened Sums
  import opened Ids
  import opened Stock
  import opened Checkouts
  import opened Invariants
  import Sourcing
  import SourcingProofs
  import opened StockProofs
  import opened CheckoutProofs
  import opened PaymentSafety

  /** How much of a listing some lines ask for. */
  function Wanted(lines: seq<Line>, l: Id): nat {
    if lines == [] then 0
    else
      var n := |lines| - 1;
      Wanted(lines[..n], l) + if lines[n].listing == l then lines[n].quantity else 0
  }

  // A listing's row once `quantity` of it is reserved.
  function Taken(row: Listing, quantity: nat): Listing {
    if quantity == 0 then row else Restatused(row.(floating := row.floating - quantity))
  }

  // However many lines ask for a listing, its row ends as if they had been one.
  lemma {:induction false} ReservedRow(listings: map<Id, Listing>, verified: set<Id>, lines: seq<Line>, l: Id)
    requires ReserveAll(listings, verified, lines).Some? && l in listings
    requires forall i | 0 <= i < |lines| :: lines[i].quantity > 0
    ensures Wanted(lines, l) > 0 ==> listings[l].status.Published?
    ensures var after := ReserveAll(listings, verified, lines).value.listings;
            l in after && after[l] == Taken(listings[l], Wanted(lines, l))
  {
    if lines != [] {
      ReservedRow(listings, verified, lines[..|lines| - 1], l);
    }
  }

  lemma LastIsNew(orders: map<Id, Order>, lines: seq<OrderLine>, c: Id, buyer: Id, first: Id)
    requires lines != [] && (forall o | o in orders :: o < first)
    ensures var n := |lines| - 1;
            && first + n !in AddOrders(orders, lines[..n], c, buyer, first)
            && AddOrders(orders, lines, c, buyer, first)
               == AddOrders(orders, lines[..n], c, buyer, first)[first + n := NewOrder(lines[n], c, buyer)]
  {
    AddedIds(orders, lines[..|lines| - 1], c, buyer, first);
  }

  // The last order added holds the last line's quantity.
  lemma AddedLast(orders: map<Id, Order>, lines: seq<OrderLine>, c: Id, buyer: Id, first: Id, l: Id)
    requires lines != [] && (forall o | o in orders :: o < first)
    ensures var n := |lines| - 1;
            Sum(AddOrders(orders, lines, c, buyer, first), ReleasedOn(l, c))
            == Sum(AddOrders(orders, lines[..n], c, buyer, first), ReleasedOn(l, c))
               + if lines[n].listing == l then lines[n].quantity else 0
  {
    hide AddOrders;
    var n := |lines| - 1;
    var o: Id := first + n;
    LastIsNew(orders, lines, c, buyer, first);
    SumInsert(AddOrders(orders, lines[..n], c, buyer, first), ReleasedOn(l, c), o, NewOrder(lines[n], c, buyer));
  }

  // The orders added for reserved lines hold what the lines asked for.
  lemma {:induction false} PlacedHolds(listings: map<Id, Listing>, verified: set<Id>, orders: map<Id, Order>,
                                       lines: seq<Line>, c: Id, buyer: Id, first: Id, l: Id)
    requires ReserveAll(listings, verified, lines).Some? && (forall o | o in orders :: o < first)
    ensures Sum(AddOrders(orders, ReserveAll(listings, verified, lines).value.lines, c, buyer, first), ReleasedOn(l, c))
            == Sum(orders, ReleasedOn(l, c)) + Wanted(lines, l)
  {
    hide TryReserve, ReleasedOn;
    if lines != [] {
      var n := |lines| - 1;
      LastReserved(listings, verified, lines);
      PlacedHolds(listings, verified, orders, lines[..n], c, buyer, first, l);
      AddedLast(orders, ReserveAll(listings, verified, lines).value.lines, c, buyer, first, l);
    }
  }

  lemma NoneOfMissing(checkouts: map<Id, Checkout>, orders: map<Id, Order>, c: Id, l: Id)
    requires CheckoutsOk(checkouts, orders) && c !in checkouts
    ensures Sum(orders, ReleasedOn(l, c)) == 0
  {
    forall o | o in orders
      ensures ReleasedOn(l, c)(orders[o]) == 0
    {
      assert OrderFits(checkouts, orders[o]);
    }
    SumZero(orders, ReleasedOn(l, c));
  }

  // A checkout whose orders hold nothing on a listing has no order there.
  lemma HoldsIffReleased(listings: map<Id, Listing>, orders: map<Id, Order>, l: Id, c: Id)
    requires StockOk(listings, orders)
    ensures HoldsUnpaid(orders, l, c) <==> Sum(orders, ReleasedOn(l, c)) > 0
  {
    if o :| o in orders && orders[o].listing == l && Unpaid(orders[o], c) {
      SumAtLeast(orders, ReleasedOn(l, c), o);
    } else {
      NothingReleased(orders, c, l);
    }
  }

  // Taking stock off a published listing and giving it all back leaves its row as it was.
  lemma TakeAndReturn(row: Listing, taken: int, held: int, committed: int)
    requires ListingOk(row, held, committed) && row.status.Published? && held >= 0
    ensures var after := Restatused(row.(floating := row.floating - taken));
            Restatused(after.(floating := after.floating + taken)) == row
  {
  }

  lemma RowIn(s: State, l: Id)
    requires StockOk(s.listings, s.orders) && l in s.listings
    ensures ListingOk(s.listings[l], Sum(s.orders, HeldOn(l)), Sum(s.orders, CommittedOn(l)))
    ensures Sum(s.orders, HeldOn(l)) >= 0
  {
    SumNonNegative(s.orders, HeldOn(l));
  }

  // What a placement takes: one listing of it, for the checkout the placement made.
  lemma PlaceTakesOn(s: State, config: Config, draft: Draft, lines: seq<Line>, request: Option<Id>, now: int,
                     lost: Error, l: Id)
    requires Inv(s) && MayPlace(s, draft, lines, request) && Place(s, config, draft, lines, request, now, lost).Ok?
    requires l in s.listings
    ensures var t := Place(s, config, draft, lines, request, now, lost).value;
            && l in t.listings && Sum(t.orders, ReleasedOn(l, s.next)) == Wanted(lines, l)
            && t.listings[l] == Taken(s.listings[l], Wanted(lines, l))
            && (Wanted(lines, l) > 0 ==> s.listings[l].status.Published?)
  {
    hide InvBut, CheckoutsOk, StockOk, ReleasedOn, HasKey, HasLive, Restatused, Taken, Wanted, FreshOk;
    Placing(s);
    ReservedRow(s.listings, s.verified, lines, l);
    PlacedHolds(s.listings, s.verified, s.orders, lines, s.next, draft.buyer, s.next + 1, l);
    NoneOfMissing(s.checkouts, s.orders, s.next, l);
  }

  lemma Placing(s: State)
    requires Inv(s)
    ensures FreshOk(s) && StockOk(s.listings, s.orders) && CheckoutsOk(s.checkouts, s.orders)
    ensures s.next !in s.checkouts && forall o | o in s.orders :: o < s.next + 1
  {
    hide StockOk, CheckoutsOk, HandoversOk, ReadsOk, PaymentsOk, RefundsOk, PayoutsOk, Excluded, RequestRefs, SyncedBut;
    hide CartsOk;
  }

  lemma ReturnedAsItWas(s: State, t: State, c: Id, l: Id, wanted: nat)
    requires StockOk(s.listings, s.orders) && StockOk(t.listings, t.orders) && l in s.listings && l in t.listings
    requires Sum(t.orders, ReleasedOn(l, c)) == wanted && (wanted > 0 ==> s.listings[l].status.Published?)
    requires t.listings[l] == Taken(s.listings[l], wanted)
    ensures Returned(t.listings, t.orders, c)[l] == s.listings[l]
  {
    hide StockOk, HoldsUnpaid, Restatused, ReleasedOn, HeldOn, CommittedOn;
    HoldsIffReleased(t.listings, t.orders, l, c);
    RowIn(s, l);
    if wanted > 0 {
      TakeAndReturn(s.listings[l], wanted, Sum(s.orders, HeldOn(l)), Sum(s.orders, CommittedOn(l)));
    }
  }

  /** Ending a checkout just placed, before anybody pays, gives every listing back the row it had. */
  lemma ReleaseUndoesPlace(s: State, config: Config, draft: Draft, lines: seq<Line>, request: Option<Id>, now: int,
                           lost: Error, status: CheckoutStatus)
    requires Inv(s) && MayPlace(s, draft, lines, request) && Place(s, config, draft, lines, request, now, lost).Ok?
    ensures var t := Place(s, config, draft, lines, request, now, lost).value;
            s.next in t.checkouts && Release(t, s.next, status).listings == s.listings
  {
    hide InvBut, CheckoutsOk, StockOk, ReleasedOn, Restatused, Place, MayPlace, Returned, WithOrders, WithoutPending;
    hide Added, Wanted;
    var t := Place(s, config, draft, lines, request, now, lost).value;
    Placing(s);
    PlacedTables(s, config, draft, lines, request, now, lost);
    PlacedKeys(s, config, draft, lines, request, now, lost);
    ReturnedKeys(t, s.next);
    forall l | l in s.listings
      ensures Returned(t.listings, t.orders, s.next)[l] == s.listings[l]
    {
      PlaceTakesOn(s, config, draft, lines, request, now, lost, l);
      ReturnedAsItWas(s, t, s.next, l, Wanted(lines, l));
    }
  }

  lemma PlacedKeys(s: State, config: Config, draft: Draft, lines: seq<Line>, request: Option<Id>, now: int, lost: Error)
    requires StockOk(s.listings, s.orders)
    requires MayPlace(s, draft, lines, request) && Place(s, config, draft, lines, request, now, lost).Ok?
    ensures Place(s, config, draft, lines, request, now, lost).value.listings.Keys == s.listings.Keys
    ensures Place(s, config, draft, lines, request, now, lost).value.checkouts[s.next].buyer == draft.buyer
    ensures Place(s, config, draft, lines, request, now, lost).value.checkouts[s.next].expiresAt == now + config.holdMs
  {
    hide StockOk, HasKey, HasLive, ReserveAll, AddOrders;
    PricesPositive(s.listings, s.orders);
    ReserveFacts(s.listings, s.verified, lines);
  }

  // ----- The marketplace's own calls -----

  // What a placement for `draft.buyer` leaves, whatever happens to the buyer's cart with it.
  lemma EndsUndo(s: State, t: State, c: Id, now: int)
    requires c in t.checkouts && t.checkouts[c].status.AwaitingPayment?
    requires Release(t, c, CheckoutStatus.Cancelled).listings == s.listings
    requires Release(t, c, Expired).listings == s.listings
    ensures var u := CancelCheckout(t, c, t.checkouts[c].buyer); u.Ok? && u.value.listings == s.listings
    ensures Expire(t, c, now).Ok? <==> now > t.checkouts[c].expiresAt
    ensures Expire(t, c, now).Ok? ==> Expire(t, c, now).value.listings == s.listings
  {
    hide Release, Sourcing.Sync;
    SourcingProofs.SyncTouchesStatusOnly(Release(t, c, CheckoutStatus.Cancelled), t.checkouts[c].request);
    SourcingProofs.SyncTouchesStatusOnly(Release(t, c, Expired), t.checkouts[c].request);
  }

  // All three ways to place a checkout do so through `Place`, which alone decides its stock.
  lemma PlacementUndone(s: State, t: State, config: Config, draft: Draft, lines: seq<Line>, request: Option<Id>,
                        now: int, lost: Error, later: int)
    requires Inv(s) && MayPlace(s, draft, lines, request) && Place(s, config, draft, lines, request, now, lost).Ok?
    requires var placed := Place(s, config, draft, lines, request, now, lost).value;
             t == placed.(carts := t.carts, requests := t.requests)
    ensures Undone(s, t, config, draft.buyer, now, later)
  {
    hide Inv, MayPlace, Place, Release, CancelCheckout, Expire;
    var placed := Place(s, config, draft, lines, request, now, lost).value;
    Placing(s);
    PlacedTables(s, config, draft, lines, request, now, lost);
    PlacedKeys(s, config, draft, lines, request, now, lost);
    ReleaseUndoesPlace(s, config, draft, lines, request, now, lost, CheckoutStatus.Cancelled);
    ReleaseUndoesPlace(s, config, draft, lines, request, now, lost, Expired);
    SameRelease(placed, t, s.next, CheckoutStatus.Cancelled);
    SameRelease(placed, t, s.next, Expired);
    EndsUndo(s, t, s.next, later);
  }

  lemma SameRelease(s: State, t: State, c: Id, status: CheckoutStatus)
    requires c in s.checkouts && t == s.(carts := t.carts, requests := t.requests)
    ensures Release(t, c, status).listings == Release(s, c, status).listings
  {
  }

  /** The checkout placed from `s` to `t` can be cancelled, and expires when due; both bring the stock of `s` back. */
  ghost predicate Undone(s: State, t: State, config: Config, buyer: Id, now: int, later: int) {
    && CancelCheckout(t, s.next, buyer).Ok?
    && CancelCheckout(t, s.next, buyer).value.listings == s.listings
    && (Expire(t, s.next, later).Ok? <==> later > now + config.holdMs)
    && (Expire(t, s.next, later).Ok? ==> Expire(t, s.next, later).value.listings == s.listings)
  }

  lemma {:induction false} WantedOfCart(cart: map<Id, nat>, l: Id)
    ensures Wanted(SortedLines(cart), l) == if l in cart then cart[l] else 0
    decreases cart.Keys
  {
    if cart != map[] {
      var m := Max(cart.Keys);
      assert (cart - {m}).Keys < cart.Keys;
      WantedOfCart(cart - {m}, l);
      assert SortedLines(cart)[..|cart| - 1] == SortedLines(cart - {m});
    }
  }

  lemma CartMayPlace(s: State, draft: Draft)
    requires Inv(s) && !HasKey(s.checkouts, draft.buyer, draft.key) && CartOf(s, draft.buyer) != map[]
    ensures MayPlace(s, draft, SortedLines(CartOf(s, draft.buyer)), None)
  {
    hide Inv, HasKey;
    CartPositive(s, draft.buyer);
    SortedLinesAre(CartOf(s, draft.buyer));
  }

  /**
   * Checking a cart out takes each listing's quantity in the cart and nothing else off that listing,
   * empties the cart, and is undone on every listing by cancelling the checkout or by its expiry.
   */
  lemma CartCheckoutUndone(s: State, config: Config, draft: Draft, now: int, later: int, l: Id)
    requires Inv(s) && !HasKey(s.checkouts, draft.buyer, draft.key) && PlaceOrders(s, config, draft, now).Ok?
    requires l in s.listings
    ensures var t := PlaceOrders(s, config, draft, now).value;
            var cart := CartOf(s, draft.buyer);
            var wanted := if l in cart then cart[l] else 0;
            && Sum(t.orders, PlacedOn(l, s.next)) == wanted
            && l in t.listings && t.listings[l].floating == s.listings[l].floating - wanted
            && t.listings[l].actual == s.listings[l].actual
            && CartOf(t, draft.buyer) == map[]
            && Undone(s, t, config, draft.buyer, now, later)
  {
    hide Inv, MayPlace, Place, CheckoutsOk, PlacedOn, ReleasedOn, HasKey, Undone, AllOrderable;
    var cart := CartOf(s, draft.buyer);
    var lines := SortedLines(cart);
    var t := PlaceOrders(s, config, draft, now).value;
    CartMayPlace(s, draft);
    PlaceTakesOn(s, config, draft, lines, None, now, CartNeedsAttention, l);
    PlacedCheckout(s, config, draft, lines, None, now, CartNeedsAttention);
    AllUnpaid(t.checkouts, t.orders, s.next, l);
    WantedOfCart(cart, l);
    PlacementUndone(s, t, config, draft, lines, None, now, CartNeedsAttention, later);
  }

  lemma PlacedCheckout(s: State, config: Config, draft: Draft, lines: seq<Line>, request: Option<Id>, now: int,
                      lost: Error)
    requires Inv(s) && MayPlace(s, draft, lines, request) && Place(s, config, draft, lines, request, now, lost).Ok?
    ensures var t := Place(s, config, draft, lines, request, now, lost).value;
            && CheckoutsOk(t.checkouts, t.orders) && s.next in t.checkouts && t.checkouts[s.next].status.AwaitingPayment?
            && t.carts == s.carts
  {
    hide InvBut, MayPlace, Place, StockOk, CheckoutsOk, Added;
    Placing(s);
    PlacedTables(s, config, draft, lines, request, now, lost);
  }

  /** The same of buying one listing directly, and no cart changes. */
  lemma BuyNowUndone(s: State, config: Config, draft: Draft, line: Line, now: int, later: int)
    requires Inv(s) && line.quantity > 0 && !HasKey(s.checkouts, draft.buyer, draft.key)
    requires BuyNow(s, config, draft, line, now).Ok? && line.listing in s.listings
    ensures var t := BuyNow(s, config, draft, line, now).value;
            && t.carts == s.carts
            && Sum(t.orders, PlacedOn(line.listing, s.next)) == line.quantity
            && line.listing in t.listings
            && t.listings[line.listing].floating == s.listings[line.listing].floating - line.quantity
            && Undone(s, t, config, draft.buyer, now, later)
  {
    hide Inv, Place, CheckoutsOk, PlacedOn, ReleasedOn, HasKey, Undone;
    var lost := OrderRefusal(s.listings, s.verified, line.listing);
    var t := BuyNow(s, config, draft, line, now).value;
    assert Wanted([line], line.listing) == Wanted([], line.listing) + line.quantity;
    PlaceTakesOn(s, config, draft, [line], None, now, lost, line.listing);
    PlacedCheckout(s, config, draft, [line], None, now, lost);
    AllUnpaid(t.checkouts, t.orders, s.next, line.listing);
    PlacementUndone(s, t, config, draft, [line], None, now, lost, later);
  }

  /** The same of confirming a request's selection. */
  lemma ConfirmUndone(s: State, config: Config, r: Id, draft: Draft, matching: set<Id>, now: int, later: int, l: Id)
    requires Inv(s) && r in s.requests && !HasKey(s.checkouts, s.requests[r].buyer, draft.key)
    requires ConfirmRequest(s, config, r, draft, matching, now).Ok? && l in s.listings
    ensures var t := ConfirmRequest(s, config, r, draft, matching, now).value;
            var row := s.requests[r];
            var wanted := if l in row.allocations then row.allocations[l] else 0;
            && Sum(t.orders, PlacedOn(l, s.next)) == wanted
            && l in t.listings && t.listings[l].floating == s.listings[l].floating - wanted
            && Undone(s, t, config, row.buyer, now, later)
  {
    hide Inv, MayPlace, Place, CheckoutsOk, PlacedOn, ReleasedOn, HasKey, Undone, Sourcing.Sync, Selected;
    hide Sourcing.ListingEligible;
    var row := s.requests[r];
    var lines := SortedLines(row.allocations);
    var drawn := draft.(buyer := row.buyer);
    var t := ConfirmRequest(s, config, r, draft, matching, now).value;
    ConfirmMayPlace(s, config, r, draft, matching, now);
    var placed := Place(s, config, drawn, lines, Some(r), now, ListingNotEligible).value;
    SourcingProofs.SyncTouchesStatusOnly(placed, Some(r));
    PlaceTakesOn(s, config, drawn, lines, Some(r), now, ListingNotEligible, l);
    PlacedCheckout(s, config, drawn, lines, Some(r), now, ListingNotEligible);
    AllUnpaid(t.checkouts, t.orders, s.next, l);
    WantedOfCart(row.allocations, l);
    PlacementUndone(s, t, config, drawn, lines, Some(r), now, ListingNotEligible, later);
  }

  lemma ConfirmMayPlace(s: State, config: Config, r: Id, draft: Draft, matching: set<Id>, now: int)
    requires Inv(s) && r in s.requests && !HasKey(s.checkouts, s.requests[r].buyer, draft.key)
    requires ConfirmRequest(s, config, r, draft, matching, now).Ok?
    ensures var row := s.requests[r];
            var lines := SortedLines(row.allocations);
            var placed := Place(s, config, draft.(buyer := row.buyer), lines, Some(r), now, ListingNotEligible);
            && MayPlace(s, draft.(buyer := row.buyer), lines, Some(r)) && placed.Ok?
            && ConfirmRequest(s, config, r, draft, matching, now).value == Sourcing.Sync(placed.value, Some(r))
  {
    hide Inv, Place, Sourcing.Sync, Selected, Sourcing.ListingEligible, HasLive;
    AllocationsPositive(s, r);
    SortedLinesAre(s.requests[r].allocations);
  }
}
