/** What the farmer's and the admin's steps on listings keep. */
module ListingProofs {
  import opened Rows
  import opened Sums
  import opened Stock
  import opened Invariants
  import opened Evolution
  import opened StockProofs

  // Tables no order, checkout, payment or request row rests on.
  lemma ShopKeeps(s: State, listings: map<Id, Listing>, seen: map<Id, Read<Listing>>, accounts: map<Id, int>, next: Id)
    requires Inv(s) && StockOk(listings, s.orders) && next >= s.next
    requires forall l | l in listings :: l < next
    ensures var t := s.(listings := listings, listingReads := seen, accounts := accounts, next := next);
            Inv(t) && Evolves(s, t)
  {
    hide StockOk, CheckoutsOk, HandoversOk, PaymentsOk, RefundsOk, PayoutsOk, Excluded, RequestRefs, SyncedBut, CartsOk;
    hide OrdersEvolve, CheckoutsEvolve, PaymentsEvolve, RefundsEvolve, PayoutsEvolve, ItemsEvolve, RequestsEvolve;
    EvolvesReflexive(s);
  }

  lemma ListingsFresh(s: State)
    requires Inv(s)
    ensures forall l | l in s.listings :: l < s.next
    ensures StockOk(s.listings, s.orders)
  {
    hide StockOk, CheckoutsOk, HandoversOk, ReadsOk, PaymentsOk, RefundsOk, PayoutsOk, Excluded, RequestRefs, SyncedBut;
    hide CartsOk;
  }

  lemma CreateListingKeeps(s: State, farm: Id, farmer: Id, price: nat, quantity: nat, status: ProduceStatus)
    requires Inv(s) && price > 0
    ensures var t := CreateListing(s, farm, farmer, price, quantity, status); Inv(t) && Evolves(s, t)
  {
    hide Inv, Evolves, StockOk;
    ListingsFresh(s);
    var row := Restatused(Listing(farm, farmer, price, quantity, quantity, status, quantity));
    CreateKeepsStock(s.listings, s.orders, s.next, row);
    ShopKeeps(s, s.listings[s.next := row], s.listingReads, s.accounts, s.next + 1);
  }

  lemma ReadListingKeeps(s: State, session: Id, l: Id)
    requires Inv(s) && ReadListing(s, session, l).Ok?
    ensures var t := ReadListing(s, session, l).value; Inv(t) && Evolves(s, t)
  {
    hide Inv, Evolves, StockOk;
    ListingsFresh(s);
    ShopKeeps(s, s.listings, s.listingReads[session := Read(l, s.listings[l])], s.accounts, s.next);
  }

  lemma SetAccountKeeps(s: State, farmer: Id, heldUntil: int)
    requires Inv(s)
    ensures var t := s.(accounts := s.accounts[farmer := heldUntil]); Inv(t) && Evolves(s, t)
  {
    hide Inv, Evolves, StockOk;
    ListingsFresh(s);
    ShopKeeps(s, s.listings, s.listingReads, s.accounts[farmer := heldUntil], s.next);
  }

  lemma PricePositive(listings: map<Id, Listing>, orders: map<Id, Order>, l: Id)
    requires StockOk(listings, orders) && l in listings
    ensures listings[l].price > 0
  {
  }

  /** A stale edit that passes its guard shifts `actual` and `floating` equally, so what orders hold is untouched. */
  lemma UpdateListingKeeps(s: State, session: Id, actual: Option<nat>, status: Option<ProduceStatus>, price: Option<nat>)
    requires Inv(s) && UpdateListing(s, session, actual, status, price).Ok? && (price.Some? ==> price.value > 0)
    ensures var t := UpdateListing(s, session, actual, status, price).value; Inv(t) && Evolves(s, t)
  {
    hide Inv, Evolves, StockOk;
    ListingsFresh(s);
    var l := s.listingReads[session].id;
    var t := UpdateListing(s, session, actual, status, price).value;
    PricePositive(s.listings, s.orders, l);
    EditKeepsStock(s.listings, s.orders, l, t.listings[l]);
    ShopKeeps(s, t.listings, s.listingReads, s.accounts, s.next);
  }

  lemma DisableKeepsStock(listings: map<Id, Listing>, orders: map<Id, Order>, l: Id)
    requires StockOk(listings, orders) && l in listings
    ensures StockOk(listings[l := listings[l].(status := Disabled)], orders)
  {
  }

  lemma DisableListingKeeps(s: State, l: Id)
    requires Inv(s) && DisableListing(s, l).Ok?
    ensures var t := DisableListing(s, l).value; Inv(t) && Evolves(s, t)
  {
    hide Inv, Evolves, StockOk;
    ListingsFresh(s);
    DisableKeepsStock(s.listings, s.orders, l);
    ShopKeeps(s, s.listings[l := s.listings[l].(status := Disabled)], s.listingReads, s.accounts, s.next);
  }

  lemma RemoveListingKeeps(s: State, l: Id, byAdmin: bool)
    requires Inv(s) && RemoveListing(s, l, byAdmin).Ok?
    ensures var t := RemoveListing(s, l, byAdmin).value; Inv(t) && Evolves(s, t)
  {
    hide Inv, Evolves, StockOk;
    ListingsFresh(s);
    DropKeepsStock(s.listings, s.orders, l);
    ShopKeeps(s, s.listings - {l}, s.listingReads, s.accounts, s.next);
  }
}
