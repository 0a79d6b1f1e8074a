/**
 * What every event leaves of a listing: the farmer's edit and the admin's disable change what they are
 * asked to, and everything else moves its stock only.
 */
module ListingMoves {
  import opened Rows
  import opened Stock
  import opened Invariants
  import opened Runs
  import opened Conservation
  import opened Frames

  /** An edit computed from the session's read goes through: its counters are current and nothing ordered is taken. */
  predicate EditsNow(s: State, e: Event, l: Id)
    requires l in s.listings
  {
    && e.Shop? && e.shop.UpdateListing? && WellFormed(e.shop)
    && e.shop.session in s.listingReads && s.listingReads[e.shop.session].id == l
    && s.listingReads[e.shop.session].row.actual == s.listings[l].actual
    && s.listingReads[e.shop.session].row.floating == s.listings[l].floating
    && (e.shop.actual.Some? ==> e.shop.actual.value - s.listings[l].actual + s.listings[l].floating >= 0)
  }

  /** The status an edit leaves: as asked, except that a listing on sale is sold out when nothing is left of it. */
  function StatusAsked(seen: ProduceStatus, asked: Option<ProduceStatus>, floating: int): ProduceStatus {
    if seen.Disabled? then ProduceStatus.Disabled
    else
      var status := if asked.Some? then asked.value else seen;
      if status.Draft? || status.Disabled? then status else if floating <= 0 then SoldOut else Published
  }

  /** The row an edit leaves. */
  function AsEdited(s: State, e: Event, l: Id): Listing
    requires l in s.listings && EditsNow(s, e, l)
  {
    var was, seen := s.listings[l], s.listingReads[e.shop.session].row;
    var change := if e.shop.actual.Some? then e.shop.actual.value - was.actual else 0;
    was.(actual := was.actual + change, floating := was.floating + change, supplied := was.supplied + change,
         price := if e.shop.newPrice.Some? then e.shop.newPrice.value else was.price,
         status := StatusAsked(seen.status, e.shop.newStatus, was.floating + change))
  }

  /** Nothing on the listing has been paid for and not yet delivered or called off. */
  predicate Idle(s: State, l: Id) {
    forall o | o in s.orders && s.orders[o].listing == l ::
      s.orders[o].status.AwaitingPayment? || s.orders[o].status.Fulfilled? || s.orders[o].status.Cancelled?
  }

  predicate DisablesNow(s: State, e: Event, l: Id) {
    e.Shop? && e.shop.DisableListing? && e.shop.listing == l && Idle(s, l)
  }

  /** No order and no selection refers to the listing. */
  predicate Unreferenced(s: State, l: Id) {
    && (forall o | o in s.orders :: s.orders[o].listing != l)
    && (forall r | r in s.requests :: l !in s.requests[r].allocations)
  }

  predicate RemovesNow(s: State, e: Event, l: Id)
    requires l in s.listings
  {
    && e.Shop? && e.shop.RemoveListing? && e.shop.listing == l && Unreferenced(s, l)
    && (e.shop.byAdmin ==> s.listings[l].status.Disabled?)
  }

  // ----- The listing's own events -----

  // What an edit of row `was`, computed from row `seen` with the same counters, writes.
  lemma EditRow(was: Listing, seen: Listing, actual: Option<nat>, status: Option<ProduceStatus>, price: Option<nat>)
    requires 0 <= was.floating <= was.actual && seen.actual == was.actual && seen.floating == was.floating
    ensures var change := if actual.Some? then actual.value - was.actual else 0;
            var row := Edited(seen, actual, status, price);
            && row.floating == was.floating + change && row.actual == was.actual + change
            && (row.floating >= 0 ==> row.status == StatusAsked(seen.status, status, was.floating + change))
            && row.price == if price.Some? then price.value else seen.price
  {
  }

  lemma EditStep(s: State, e: ShopEvent, l: Id)
    requires e.UpdateListing? && WellFormed(e) && e.session in s.listingReads && s.listingReads[e.session].id == l
    requires l in s.listings && 0 <= s.listings[l].floating <= s.listings[l].actual
    ensures var r := Stock.UpdateListing(s, e.session, e.actual, e.newStatus, e.newPrice);
            if EditsNow(s, Shop(e), l) then r.Ok? && r.value.listings == s.listings[l := AsEdited(s, Shop(e), l)]
            else r.Refused?
  {
    hide Edited, StatusAsked;
    var seen := s.listingReads[e.session].row;
    if seen.actual == s.listings[l].actual && seen.floating == s.listings[l].floating {
      EditRow(s.listings[l], seen, e.actual, e.newStatus, e.newPrice);
    }
  }

  lemma EditIs(config: Config, s: State, e: ShopEvent, l: Id)
    requires e.UpdateListing? && l in s.listings && 0 <= s.listings[l].floating <= s.listings[l].actual
    ensures var t := After(config, s, Shop(e));
            l in t.listings && t.listings[l] == if EditsNow(s, Shop(e), l) then AsEdited(s, Shop(e), l) else s.listings[l]
  {
    hide Stock.UpdateListing, AsEdited;
    if WellFormed(e) {
      if e.session in s.listingReads && s.listingReads[e.session].id == l {
        EditStep(s, e, l);
      } else {
        EditElsewhere(s, e, l);
      }
    }
  }

  lemma EditElsewhere(s: State, e: ShopEvent, l: Id)
    requires e.UpdateListing? && l in s.listings && (e.session in s.listingReads ==> s.listingReads[e.session].id != l)
    ensures var r := Stock.UpdateListing(s, e.session, e.actual, e.newStatus, e.newPrice);
            r.Ok? ==> l in r.value.listings && r.value.listings[l] == s.listings[l]
  {
    hide Edited;
  }

  lemma DisableStep(s: State, q: Id)
    ensures var r := Stock.DisableListing(s, q);
            && (r.Ok? <==> q in s.listings && Idle(s, q))
            && (r.Ok? ==> r.value.listings == s.listings[q := s.listings[q].(status := ProduceStatus.Disabled)])
  {
    if o :| o in s.orders && s.orders[o].listing == q && OpenPaid(s.orders[o].status) {
      assert !Idle(s, q);
    }
  }

  lemma DisableIs(config: Config, s: State, q: Id, l: Id)
    requires l in s.listings
    ensures var e := Shop(DisableListing(q));
            var t := After(config, s, e);
            l in t.listings &&
            t.listings[l] == if DisablesNow(s, e, l) then s.listings[l].(status := ProduceStatus.Disabled) else s.listings[l]
  {
    hide Stock.DisableListing, Idle;
    DisableStep(s, q);
  }

  lemma RemoveStep(s: State, q: Id, byAdmin: bool)
    ensures var r := Stock.RemoveListing(s, q, byAdmin);
            && (r.Ok? <==> q in s.listings && (byAdmin ==> s.listings[q].status.Disabled?) && Unreferenced(s, q))
            && (r.Ok? ==> r.value.listings == s.listings - {q})
  {
    if o :| o in s.orders && s.orders[o].listing == q {
      assert !Unreferenced(s, q);
    }
    if r :| r in s.requests && q in s.requests[r].allocations {
      assert !Unreferenced(s, q);
    }
  }

  lemma RemoveIs(config: Config, s: State, q: Id, byAdmin: bool, l: Id)
    requires l in s.listings
    ensures var e := Shop(RemoveListing(q, byAdmin));
            var t := After(config, s, e);
            if RemovesNow(s, e, l) then l !in t.listings else l in t.listings && t.listings[l] == s.listings[l]
  {
    hide Stock.RemoveListing, Unreferenced;
    RemoveStep(s, q, byAdmin);
  }

  lemma CreateIs(config: Config, s: State, e: ShopEvent, l: Id)
    requires e.CreateListing? && l in s.listings && l < s.next
    ensures var t := After(config, s, Shop(e)); l in t.listings && t.listings[l] == s.listings[l]
  {
  }

  // ----- Every event -----

  lemma OthersMoveStock(config: Config, s: State, e: Event, l: Id)
    requires Inv(s) && l in s.listings
    requires !(e.Shop? && (e.shop.CreateListing? || e.shop.UpdateListing? || e.shop.DisableListing? || e.shop.RemoveListing?))
    ensures var t := After(config, s, e); l in t.listings && MovesStock(s.listings[l], t.listings[l])
  {
    hide Inv, ApplyShop, ApplyOrder, ApplyMoney, MovesStock;
    SameStays(s.listings);
    if Apply(config, s, e).Ok? {
      match e
      case Shop(x) =>
        if Placing(x) {
          PlacingStays(config, s, x);
        } else if Ending(x) {
          ReleasingStays(config, s, x);
        } else {
          RequestsStay(config, s, x);
        }
      case Order(x) => OrdersStay(s, x);
      case Money(x) => MoneyStays(config, s, x);
    }
  }

  /**
   * A listing is deleted only when nothing refers to it, and by an admin only when disabled. Its price, and what
   * the farmer supplies, change only by the farmer's edit and then to exactly what was asked; a draft or disabled
   * listing changes status only by an edit that asks for it or by a disable; all else moves only its stock, and a
   * status that follows it.
   */
  lemma EveryMove(config: Config, s: State, e: Event, l: Id)
    requires Reachable(config, s) && l in s.listings
    ensures var t := After(config, s, e);
            if RemovesNow(s, e, l) then l !in t.listings
            else
              && l in t.listings
              && if EditsNow(s, e, l) then t.listings[l] == AsEdited(s, e, l)
                 else if DisablesNow(s, e, l) then t.listings[l] == s.listings[l].(status := ProduceStatus.Disabled)
                 else MovesStock(s.listings[l], t.listings[l])
  {
    hide Reachable, Inv, After, AsEdited, Idle, Unreferenced;
    ReachableOk(config, s);
    StockConserved(config, s, l);
    FreshListing(s, l);
    if e.Shop? && e.shop.UpdateListing? {
      EditIs(config, s, e.shop, l);
    } else if e.Shop? && e.shop.DisableListing? {
      DisableIs(config, s, e.shop.listing, l);
    } else if e.Shop? && e.shop.RemoveListing? {
      RemoveIs(config, s, e.shop.listing, e.shop.byAdmin, l);
    } else if e.Shop? && e.shop.CreateListing? {
      CreateIs(config, s, e.shop, l);
    } else {
      OthersMoveStock(config, s, e, l);
    }
  }
}
