/**
 * The price a cart shows and the price checkout charges. The cart prices lines in the order it shows
 * them and leaves out those with an issue; checkout reserves them in listing order and prices the
 * rows it reserved.
 */
module Quote {
  import opened Rows
  import opened Money
  import opened Ids
  import opened Stock
  import opened Sourcing
  import opened Checkouts
  import opened Invariants
  import CheckoutProofs
  import SourcingProofs

  datatype Issue = Unavailable | NotEnough

  // What a line of the cart is flagged with, if anything.
  function CartIssue(listings: map<Id, Listing>, verified: set<Id>, line: Line): Option<Issue> {
    if line.listing !in listings || !listings[line.listing].status.Published? || listings[line.listing].farm !in verified
    then Some(Unavailable)
    else if line.quantity > listings[line.listing].floating then Some(NotEnough)
    else None
  }

  /** The cart's check and the reservation's condition are twins. */
  lemma IssueIsRefusal(listings: map<Id, Listing>, verified: set<Id>, line: Line)
    ensures CartIssue(listings, verified, line).None? <==> IsOrderable(listings, verified, line.listing, line.quantity)
  {
  }

  function LinePrice(listings: map<Id, Listing>, verified: set<Id>, line: Line): nat {
    if CartIssue(listings, verified, line).Some? then 0
    else
      MulNatural(listings[line.listing].price, line.quantity);
      listings[line.listing].price * line.quantity
  }

  function CartTotal(listings: map<Id, Listing>, verified: set<Id>, lines: seq<Line>): nat {
    if lines == [] then 0
    else CartTotal(listings, verified, lines[..|lines| - 1]) + LinePrice(listings, verified, lines[|lines| - 1])
  }

  // The cart's bottom line: goods, fee on the goods, and delivery if at least one line can be had.
  function QuotedTotal(config: Config, listings: map<Id, Listing>, verified: set<Id>, lines: seq<Line>): nat {
    var total := CartTotal(listings, verified, lines);
    var delivery :=
      if exists i | 0 <= i < |lines| :: CartIssue(listings, verified, lines[i]).None? then config.deliveryFee else 0;
    total + delivery + PercentOf(total, config.serviceFeeBps)
  }

  /** No checkout of the buyer's was made under the key. */
  predicate Unused(checkouts: map<Id, Checkout>, buyer: Id, key: Id) {
    forall c | c in checkouts :: !(checkouts[c].buyer == buyer && checkouts[c].key == key)
  }

  lemma UnusedIsNew(checkouts: map<Id, Checkout>, buyer: Id, key: Id)
    ensures Unused(checkouts, buyer, key) <==> !HasKey(checkouts, buyer, key)
  {
  }

  // ----- The order of lines does not matter -----

  lemma {:induction false} CartTotalTakes(listings: map<Id, Listing>, verified: set<Id>, lines: seq<Line>, i: nat)
    requires i < |lines|
    ensures CartTotal(listings, verified, lines)
            == CartTotal(listings, verified, lines[..i] + lines[i + 1..]) + LinePrice(listings, verified, lines[i])
  {
    hide LinePrice;
    var n := |lines| - 1;
    var rest := lines[..i] + lines[i + 1..];
    if i < n {
      assert rest[|rest| - 1] == lines[n] && lines[..n][i] == lines[i];
      CartTotalTakes(listings, verified, lines[..n], i);
      assert rest[..n - 1] == lines[..n][..i] + lines[..n][i + 1..];
    } else {
      assert rest == lines[..n];
    }
  }

  lemma WithoutOne(b: seq<Line>, i: nat)
    requires i < |b|
    ensures multiset(b[..i] + b[i + 1..]) == multiset(b) - multiset{b[i]}
  {
    assert b == b[..i] + ([b[i]] + b[i + 1..]);
  }

  /** However the lines are ordered, the cart totals the same. */
  lemma {:induction false} CartTotalPermutes(listings: map<Id, Listing>, verified: set<Id>, a: seq<Line>, b: seq<Line>)
    requires multiset(a) == multiset(b)
    ensures CartTotal(listings, verified, a) == CartTotal(listings, verified, b)
  {
    hide LinePrice;
    assert |a| == |multiset(a)| == |multiset(b)| == |b|;
    if a != [] {
      var n := |a| - 1;
      assert a[n] in multiset(b);
      var i :| 0 <= i < |b| && b[i] == a[n];
      WithoutOne(b, i);
      WithoutOne(a, n);
      assert a[..n] + a[n + 1..] == a[..n];
      CartTotalPermutes(listings, verified, a[..n], b[..i] + b[i + 1..]);
      CartTotalTakes(listings, verified, b, i);
    }
  }

  // ----- Every reservation succeeds exactly when no line has an issue -----

  predicate NoIssues(listings: map<Id, Listing>, verified: set<Id>, lines: seq<Line>) {
    forall i | 0 <= i < |lines| :: CartIssue(listings, verified, lines[i]).None?
  }

  lemma {:induction false} ReserveTouchesLines(listings: map<Id, Listing>, verified: set<Id>, lines: seq<Line>, l: Id)
    requires ReserveAll(listings, verified, lines).Some?
    requires forall i | 0 <= i < |lines| :: lines[i].listing != l
    ensures var after := ReserveAll(listings, verified, lines).value.listings;
            (l in after <==> l in listings) && (l in listings ==> after[l] == listings[l])
  {
    if lines != [] {
      ReserveTouchesLines(listings, verified, lines[..|lines| - 1], l);
    }
  }

  /** The loop reserves every line exactly when the cart shows no issue with any. */
  lemma {:induction false} ReserveAllIff(listings: map<Id, Listing>, verified: set<Id>, lines: seq<Line>)
    requires Distinct(lines)
    ensures ReserveAll(listings, verified, lines).Some? <==> NoIssues(listings, verified, lines)
  {
    if lines != [] {
      var n := |lines| - 1;
      var before := ReserveAll(listings, verified, lines[..n]);
      ReserveAllIff(listings, verified, lines[..n]);
      assert NoIssues(listings, verified, lines) <==>
        NoIssues(listings, verified, lines[..n]) && CartIssue(listings, verified, lines[n]).None?;
      if before.Some? {
        ReserveTouchesLines(listings, verified, lines[..n], lines[n].listing);
        IssueIsRefusal(listings, verified, lines[n]);
      }
    }
  }

  /** The rows reserved are priced as the cart quoted them. */
  lemma {:induction false} ReservedTotal(listings: map<Id, Listing>, verified: set<Id>, lines: seq<Line>)
    requires Distinct(lines) && ReserveAll(listings, verified, lines).Some?
    ensures Subtotal(ReserveAll(listings, verified, lines).value.lines) == CartTotal(listings, verified, lines)
  {
    if lines != [] {
      var n := |lines| - 1;
      var before := ReserveAll(listings, verified, lines[..n]).value;
      ReservedTotal(listings, verified, lines[..n]);
      ReserveTouchesLines(listings, verified, lines[..n], lines[n].listing);
      ReserveAllIff(listings, verified, lines);
      var r := ReserveAll(listings, verified, lines).value;
      assert r.lines[..n] == before.lines;
      assert CartIssue(listings, verified, lines[n]).None?;
    }
  }

  lemma PlaceIff(s: State, config: Config, draft: Draft, lines: seq<Line>, request: Option<Id>, now: int, lost: Error)
    requires Distinct(lines) && lines != []
    ensures Place(s, config, draft, lines, request, now, lost).Ok? <==>
              NoIssues(s.listings, s.verified, lines) &&
              draft.expectedTotal == QuotedTotal(config, s.listings, s.verified, lines)
    ensures Place(s, config, draft, lines, request, now, lost).Ok? ==>
              var t := Place(s, config, draft, lines, request, now, lost).value;
              s.next in t.checkouts && t.checkouts[s.next].total == draft.expectedTotal
  {
    ReserveAllIff(s.listings, s.verified, lines);
    if ReserveAll(s.listings, s.verified, lines).Some? {
      ReservedTotal(s.listings, s.verified, lines);
      assert CartIssue(s.listings, s.verified, lines[0]).None?;
    }
  }

  lemma SortedDistinct(cart: map<Id, nat>)
    ensures Distinct(SortedLines(cart))
  {
    CheckoutProofs.SortedLinesAre(cart);
  }

  // A cart's lines, in whatever order they are listed.
  ghost predicate Lists(lines: seq<Line>, cart: map<Id, nat>) {
    multiset(lines) == multiset(SortedLines(cart))
  }

  lemma QuotePermutes(config: Config, listings: map<Id, Listing>, verified: set<Id>, a: seq<Line>, b: seq<Line>)
    requires multiset(a) == multiset(b)
    ensures NoIssues(listings, verified, a) <==> NoIssues(listings, verified, b)
    ensures QuotedTotal(config, listings, verified, a) == QuotedTotal(config, listings, verified, b)
  {
    CartTotalPermutes(listings, verified, a, b);
    SameLines(a, b);
  }

  lemma SameLines(a: seq<Line>, b: seq<Line>)
    requires multiset(a) == multiset(b)
    ensures forall i | 0 <= i < |a| :: a[i] in b
    ensures forall i | 0 <= i < |b| :: b[i] in a
  {
    forall i | 0 <= i < |a|
      ensures a[i] in b
    {
      assert a[i] in multiset(b);
    }
    forall i | 0 <= i < |b|
      ensures b[i] in a
    {
      assert b[i] in multiset(a);
    }
  }

  /**
   * Checkout of a cart with a fresh key goes through exactly when the cart is not empty, no line shows
   * an issue, delivery is possible, and the buyer was shown the total the cart quotes; the total
   * charged is that quote, in whatever order the lines were shown.
   */
  lemma QuoteIsCharged(s: State, config: Config, draft: Draft, now: int, shown: seq<Line>)
    requires Unused(s.checkouts, draft.buyer, draft.key) && Lists(shown, CartOf(s, draft.buyer))
    ensures PlaceOrders(s, config, draft, now).Ok? <==>
              shown != [] && NoIssues(s.listings, s.verified, shown) && draft.deliverable &&
              draft.expectedTotal == QuotedTotal(config, s.listings, s.verified, shown)
    ensures PlaceOrders(s, config, draft, now).Ok? ==>
              var t := PlaceOrders(s, config, draft, now).value;
              s.next in t.checkouts && t.checkouts[s.next].total == QuotedTotal(config, s.listings, s.verified, shown)
  {
    hide Place, QuotedTotal, HasKey, Unused;
    UnusedIsNew(s.checkouts, draft.buyer, draft.key);
    var cart := CartOf(s, draft.buyer);
    var lines := SortedLines(cart);
    assert |shown| == |multiset(shown)| == |lines|;
    SortedDistinct(cart);
    QuotePermutes(config, s.listings, s.verified, shown, lines);
    if cart != map[] {
      PlaceIff(s, config, draft, lines, None, now, CartNeedsAttention);
      OrderableIffNoIssues(s, cart);
    }
  }

  lemma OrderableIffNoIssues(s: State, cart: map<Id, nat>)
    ensures AllOrderable(s, cart) <==> NoIssues(s.listings, s.verified, SortedLines(cart))
  {
    var lines := SortedLines(cart);
    CheckoutProofs.SortedLinesAre(cart);
    SortedCovers(cart);
    forall l | l in cart
      ensures IsOrderable(s.listings, s.verified, l, cart[l]) <==> CartIssue(s.listings, s.verified, Line(l, cart[l])).None?
    {
      IssueIsRefusal(s.listings, s.verified, Line(l, cart[l]));
    }
    forall i | 0 <= i < |lines|
      ensures lines[i] == Line(lines[i].listing, cart[lines[i].listing])
    {
    }
  }

  lemma {:induction false} SortedCovers(cart: map<Id, nat>)
    ensures forall l | l in cart :: Line(l, cart[l]) in SortedLines(cart)
    decreases cart.Keys
  {
    if cart != map[] {
      var m := Max(cart.Keys);
      assert (cart - {m}).Keys < cart.Keys;
      SortedCovers(cart - {m});
      forall l | l in cart
        ensures Line(l, cart[l]) in SortedLines(cart)
      {
        if l != m {
          assert Line(l, (cart - {m})[l]) in SortedLines(cart - {m});
        } else {
          assert SortedLines(cart)[|cart| - 1] == Line(m, cart[m]);
        }
      }
    }
  }

  // ----- Buying one listing directly -----

  /** What stands in the way of buying a line directly, the first thing first. */
  function DirectRefusal(s: State, config: Config, draft: Draft, line: Line): Option<Error> {
    if !draft.deliverable then Some(InvalidDelivery)
    else if line.listing !in s.listings then Some(ProduceNotFound)
    else
      var row := s.listings[line.listing];
      if row.farm !in s.verified || row.status.Draft? then Some(ProduceNotFound)
      else if row.status.SoldOut? || row.status.Disabled? then Some(ProduceUnavailable)
      else if row.floating < line.quantity then Some(InsufficientStock)
      else if draft.expectedTotal != QuotedTotal(config, s.listings, s.verified, [line]) then Some(CartPriceChanged)
      else None
  }

  /** Buying directly with a fresh key goes through exactly when nothing stands in its way, and otherwise says what does. */
  lemma BuyNowIff(s: State, config: Config, draft: Draft, line: Line, now: int)
    requires Unused(s.checkouts, draft.buyer, draft.key)
    ensures match DirectRefusal(s, config, draft, line)
            case Some(error) => BuyNow(s, config, draft, line, now) == Refused(error)
            case None =>
              && BuyNow(s, config, draft, line, now).Ok?
              && var t := BuyNow(s, config, draft, line, now).value;
              s.next in t.checkouts && t.checkouts[s.next].total == draft.expectedTotal
  {
    hide HasKey, Unused, QuotedTotal, Place;
    UnusedIsNew(s.checkouts, draft.buyer, draft.key);
    var lost := OrderRefusal(s.listings, s.verified, line.listing);
    PlaceIff(s, config, draft, [line], None, now, lost);
    OneLineIssue(s.listings, s.verified, line);
    PlaceRefusal(s, config, draft, line, now, lost);
  }

  lemma OneLineIssue(listings: map<Id, Listing>, verified: set<Id>, line: Line)
    ensures NoIssues(listings, verified, [line]) <==> CartIssue(listings, verified, line).None?
  {
    assert [line][0] == line;
  }

  lemma PlaceRefusal(s: State, config: Config, draft: Draft, line: Line, now: int, lost: Error)
    ensures Place(s, config, draft, [line], None, now, lost).Refused? ==>
              Place(s, config, draft, [line], None, now, lost)
              == Refused(if IsOrderable(s.listings, s.verified, line.listing, line.quantity) then CartPriceChanged else lost)
  {
    IssueIsRefusal(s.listings, s.verified, line);
    OneLineIssue(s.listings, s.verified, line);
    ReserveAllIff(s.listings, s.verified, [line]);
  }

  // ----- Confirming a selection -----

  /** What an admin's confirmation of a selection checks, once the key and any live checkout are ruled out. */
  ghost predicate SelectionReady(s: State, config: Config, row: Request, draft: Draft, matching: set<Id>) {
    && row.allocations != map[] && Selected(row.allocations) >= row.requested
    && (forall l | l in row.allocations :: ListingEligible(s, l, row.allocations[l], matching))
    && draft.deliverable
    && draft.expectedTotal == QuotedTotal(config, s.listings, s.verified, SortedLines(row.allocations))
  }

  lemma EligibleHasNoIssues(s: State, cart: map<Id, nat>, matching: set<Id>)
    requires forall l | l in cart :: ListingEligible(s, l, cart[l], matching)
    ensures NoIssues(s.listings, s.verified, SortedLines(cart))
  {
    OrderableIffNoIssues(s, cart);
  }

  // A placement adds one checkout, unpaid, for the request it was made for.
  lemma PlaceAdds(s: State, config: Config, draft: Draft, lines: seq<Line>, request: Option<Id>, now: int, lost: Error)
    requires Place(s, config, draft, lines, request, now, lost).Ok?
    ensures var t := Place(s, config, draft, lines, request, now, lost).value;
            && s.next in t.checkouts && t.checkouts == s.checkouts[s.next := t.checkouts[s.next]]
            && t.checkouts[s.next].request == request && t.checkouts[s.next].status.AwaitingPayment?
            && t.checkouts[s.next].total == draft.expectedTotal && t.requests == s.requests
  {
    hide ReserveAll, AddOrders, Subtotal, GrandTotal;
  }

  lemma PlacedLive(s: State, r: Id, c: Id)
    requires c in s.checkouts && s.checkouts[c].request == Some(r) && s.checkouts[c].status.AwaitingPayment?
    ensures HasLive(Sync(s, Some(r)).checkouts, r) && Sync(s, Some(r)).checkouts == s.checkouts
  {
    hide Sync;
    SourcingProofs.SyncTouchesStatusOnly(s, Some(r));
  }

  /**
   * Confirming with a fresh key goes through exactly when no checkout of the request is live and the
   * selection is ready, and then the request has a live checkout of the total quoted. Whether the request
   * has been closed plays no part.
   */
  lemma ConfirmIgnoresClosing(s: State, config: Config, r: Id, draft: Draft, matching: set<Id>, now: int)
    requires r in s.requests && Unused(s.checkouts, s.requests[r].buyer, draft.key)
    ensures ConfirmRequest(s, config, r, draft, matching, now).Ok? <==>
              !HasLive(s.checkouts, r) && SelectionReady(s, config, s.requests[r], draft, matching)
    ensures ConfirmRequest(s, config, r, draft, matching, now).Ok? ==>
              var t := ConfirmRequest(s, config, r, draft, matching, now).value;
              && HasLive(t.checkouts, r) && s.next in t.checkouts
              && t.checkouts[s.next].request == Some(r) && t.checkouts[s.next].total == draft.expectedTotal
  {
    hide Place, QuotedTotal, HasLive, ListingEligible, Selected, Sync, HasKey, Unused;
    var row := s.requests[r];
    UnusedIsNew(s.checkouts, row.buyer, draft.key);
    var lines := SortedLines(row.allocations);
    SortedDistinct(row.allocations);
    NoKeyOfOther(s.checkouts, row.buyer, draft.key, r);
    if row.allocations != map[] {
      PlaceIff(s, config, draft.(buyer := row.buyer), lines, Some(r), now, ListingNotEligible);
      if forall l | l in row.allocations :: ListingEligible(s, l, row.allocations[l], matching) {
        EligibleHasNoIssues(s, row.allocations, matching);
      }
      if ConfirmRequest(s, config, r, draft, matching, now).Ok? {
        var mine := draft.(buyer := row.buyer);
        PlaceAdds(s, config, mine, lines, Some(r), now, ListingNotEligible);
        PlacedLive(Place(s, config, mine, lines, Some(r), now, ListingNotEligible).value, r, s.next);
      }
    }
  }

  lemma NoKeyOfOther(checkouts: map<Id, Checkout>, buyer: Id, key: Id, r: Id)
    requires !HasKey(checkouts, buyer, key)
    ensures !KeyOfOther(checkouts, buyer, key, r)
  {
  }
}
