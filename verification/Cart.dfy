/**
 * Quantities a buyer has set aside, checked against listings but holding nothing back from other buyers. A
 * cart kept on a device is merged line by line; a merge is recorded under its key, and the record answers
 * the same key ever after.
 */
module Cart {
  import opened Rows
  import opened Stock
  import Checkouts

  const MAX_CART_ITEMS: nat := 50

  datatype Skipped = Skipped(listing: Id, reason: Error)

  /** A cart after some lines were tried, and the lines that could not be added, in order. */
  datatype Merged = Merged(cart: map<Id, nat>, skipped: seq<Skipped>)

  /** The listings as the transaction sees them; carts never change them. */
  datatype Shop = Shop(listings: map<Id, Listing>, verified: set<Id>)

  function InCart(cart: map<Id, nat>, l: Id): nat {
    if l in cart then cart[l] else 0
  }

  // Why `line` cannot be added, or None if it can.
  function Refusal(shop: Shop, cart: map<Id, nat>, line: Checkouts.Line): Option<Error> {
    if line.listing !in cart && |cart| >= MAX_CART_ITEMS then Some(CartFull)
    else if IsOrderable(shop.listings, shop.verified, line.listing, InCart(cart, line.listing) + line.quantity) then None
    else Some(OrderRefusal(shop.listings, shop.verified, line.listing))
  }

  function Tried(shop: Shop, before: Merged, line: Checkouts.Line): Merged {
    match Refusal(shop, before.cart, line)
    case None => Merged(before.cart[line.listing := InCart(before.cart, line.listing) + line.quantity], before.skipped)
    case Some(reason) => Merged(before.cart, before.skipped + [Skipped(line.listing, reason)])
  }

  function AddAll(shop: Shop, cart: map<Id, nat>, lines: seq<Checkouts.Line>): Merged {
    if lines == [] then Merged(cart, [])
    else Tried(shop, AddAll(shop, cart, lines[..|lines| - 1]), lines[|lines| - 1])
  }

  // ----- What merging comes to -----

  predicate Skips(skipped: seq<Skipped>, l: Id) {
    exists i | 0 <= i < |skipped| :: skipped[i].listing == l
  }

  predicate Offers(lines: seq<Checkouts.Line>, l: Id) {
    exists i | 0 <= i < |lines| :: lines[i].listing == l
  }

  lemma {:induction false} OnlyOffered(shop: Shop, cart: map<Id, nat>, lines: seq<Checkouts.Line>, l: Id)
    requires !Offers(lines, l)
    ensures InCart(AddAll(shop, cart, lines).cart, l) == InCart(cart, l)
    ensures l in AddAll(shop, cart, lines).cart <==> l in cart
    ensures !Skips(AddAll(shop, cart, lines).skipped, l)
  {
    if lines != [] {
      var n := |lines| - 1;
      assert !Offers(lines[..n], l) by {
        forall i | 0 <= i < n
          ensures lines[..n][i].listing != l
        {
          assert lines[i].listing != l;
        }
      }
      OnlyOffered(shop, cart, lines[..n], l);
      assert lines[n].listing != l;
    }
  }

  /**
   * A merge adds exactly the quantities of the lines it does not report, leaves the reported ones as
   * they were, and touches nothing else.
   */
  lemma {:induction false} MergeAddsExactly(shop: Shop, cart: map<Id, nat>, lines: seq<Checkouts.Line>)
    requires Checkouts.Distinct(lines)
    ensures var m := AddAll(shop, cart, lines);
            && (forall i | 0 <= i < |lines| ::
                  InCart(m.cart, lines[i].listing) ==
                  InCart(cart, lines[i].listing) + (if Skips(m.skipped, lines[i].listing) then 0 else lines[i].quantity))
            && (forall l | !Offers(lines, l) :: InCart(m.cart, l) == InCart(cart, l) && !Skips(m.skipped, l))
            && cart.Keys <= m.cart.Keys
  {
    hide Skips, Offers;
    var m := AddAll(shop, cart, lines);
    forall l | !Offers(lines, l)
      ensures InCart(m.cart, l) == InCart(cart, l) && !Skips(m.skipped, l)
    {
      OnlyOffered(shop, cart, lines, l);
    }
    if lines != [] {
      var n := |lines| - 1;
      var before := AddAll(shop, cart, lines[..n]);
      MergeAddsExactly(shop, cart, lines[..n]);
      LastLine(shop, cart, lines);
      forall i | 0 <= i < n
        ensures InCart(m.cart, lines[i].listing) ==
                InCart(cart, lines[i].listing) + (if Skips(m.skipped, lines[i].listing) then 0 else lines[i].quantity)
      {
        assert lines[..n][i] == lines[i];
      }
    }
  }

  // Trying the last line settles that line alone.
  lemma LastLine(shop: Shop, cart: map<Id, nat>, lines: seq<Checkouts.Line>)
    requires Checkouts.Distinct(lines) && lines != []
    ensures var before := AddAll(shop, cart, lines[..|lines| - 1]);
            var m := AddAll(shop, cart, lines);
            var last := lines[|lines| - 1];
            && !Skips(before.skipped, last.listing) && InCart(before.cart, last.listing) == InCart(cart, last.listing)
            && (Skips(m.skipped, last.listing) <==> Refusal(shop, before.cart, last).Some?)
            && (forall l | l != last.listing ::
                  InCart(m.cart, l) == InCart(before.cart, l) && (Skips(m.skipped, l) <==> Skips(before.skipped, l)))
  {
    var n := |lines| - 1;
    var before := AddAll(shop, cart, lines[..n]);
    var m := AddAll(shop, cart, lines);
    assert !Offers(lines[..n], lines[n].listing);
    OnlyOffered(shop, cart, lines[..n], lines[n].listing);
    if Refusal(shop, before.cart, lines[n]).Some? {
      assert m.skipped[|before.skipped|].listing == lines[n].listing;
      forall l | l != lines[n].listing
        ensures Skips(m.skipped, l) <==> Skips(before.skipped, l)
      {
        if Skips(before.skipped, l) {
          var i :| 0 <= i < |before.skipped| && before.skipped[i].listing == l;
          assert m.skipped[i] == before.skipped[i];
        }
      }
    }
  }

  /** A cart never grows beyond its limit. */
  lemma {:induction false} MergeFits(shop: Shop, cart: map<Id, nat>, lines: seq<Checkouts.Line>)
    ensures |AddAll(shop, cart, lines).cart| <= if |cart| <= MAX_CART_ITEMS then MAX_CART_ITEMS else |cart|
  {
    if lines != [] {
      var n := |lines| - 1;
      var before := AddAll(shop, cart, lines[..n]).cart;
      MergeFits(shop, cart, lines[..n]);
      Grows(before, lines[n].listing, InCart(before, lines[n].listing) + lines[n].quantity);
    }
  }

  lemma Grows(cart: map<Id, nat>, l: Id, quantity: nat)
    ensures |cart[l := quantity]| == if l in cart then |cart| else |cart| + 1
  {
    if l in cart {
      assert cart[l := quantity].Keys == cart.Keys;
    } else {
      assert cart[l := quantity].Keys == cart.Keys + {l};
    }
  }

  lemma {:induction false} GrowsByLines(shop: Shop, cart: map<Id, nat>, lines: seq<Checkouts.Line>)
    ensures |AddAll(shop, cart, lines).cart| <= |cart| + |lines|
  {
    if lines != [] {
      var n := |lines| - 1;
      var before := AddAll(shop, cart, lines[..n]).cart;
      GrowsByLines(shop, cart, lines[..n]);
      Grows(before, lines[n].listing, InCart(before, lines[n].listing) + lines[n].quantity);
    }
  }

  /**
   * While the cart has room for every line, which lines are skipped does not depend on their order:
   * exactly those whose quantity, with what the cart already holds, cannot be ordered.
   */
  lemma {:induction false} SkipsTheUnorderable(shop: Shop, cart: map<Id, nat>, lines: seq<Checkouts.Line>)
    requires Checkouts.Distinct(lines) && |cart| + |lines| <= MAX_CART_ITEMS
    ensures forall i | 0 <= i < |lines| ::
              Skips(AddAll(shop, cart, lines).skipped, lines[i].listing) <==>
              !IsOrderable(shop.listings, shop.verified, lines[i].listing,
                           InCart(cart, lines[i].listing) + lines[i].quantity)
  {
    if lines != [] {
      var n := |lines| - 1;
      SkipsTheUnorderable(shop, cart, lines[..n]);
      GrowsByLines(shop, cart, lines[..n]);
      LastLine(shop, cart, lines);
      var m := AddAll(shop, cart, lines);
      forall i | 0 <= i < n
        ensures Skips(m.skipped, lines[i].listing) <==>
                !IsOrderable(shop.listings, shop.verified, lines[i].listing,
                             InCart(cart, lines[i].listing) + lines[i].quantity)
      {
        assert lines[..n][i] == lines[i];
      }
    }
  }

  /**
   * A line can be added exactly when its listing is in the cart already or the cart is not full, and the listing is
   * on sale with enough left for all the cart would then hold of it; what is missing is named, the cart's limit first.
   */
  lemma AddableIff(shop: Shop, cart: map<Id, nat>, line: Checkouts.Line)
    ensures var l, wanted, answer := line.listing, InCart(cart, line.listing) + line.quantity, Refusal(shop, cart, line);
            var known := l in shop.listings && shop.listings[l].farm in shop.verified && !shop.listings[l].status.Draft?;
            && (answer.None? <==> (l in cart || |cart| < MAX_CART_ITEMS) && known &&
                                  shop.listings[l].status.Published? && shop.listings[l].floating >= wanted)
            && (answer == Some(CartFull) <==> l !in cart && |cart| >= MAX_CART_ITEMS)
            && (answer.Some? && answer.value != CartFull ==>
                  answer.value == if !known then ProduceNotFound
                                  else if !shop.listings[l].status.Published? then ProduceUnavailable
                                  else InsufficientStock)
  {
  }

  /** A merge reports of each line just what stood in its way in the cart as the lines before it had left it. */
  lemma {:induction false} ReportsEachLine(shop: Shop, cart: map<Id, nat>, lines: seq<Checkouts.Line>, i: nat, reason: Error)
    requires Checkouts.Distinct(lines) && i < |lines|
    ensures Skipped(lines[i].listing, reason) in AddAll(shop, cart, lines).skipped <==>
              Refusal(shop, AddAll(shop, cart, lines[..i]).cart, lines[i]) == Some(reason)
  {
    var n := |lines| - 1;
    if i < n {
      assert lines[..n][..i] == lines[..i];
      ReportsEachLine(shop, cart, lines[..n], i, reason);
    } else {
      assert !Offers(lines[..n], lines[n].listing);
      OnlyOffered(shop, cart, lines[..n], lines[n].listing);
      var before := AddAll(shop, cart, lines[..n]).skipped;
      assert Skipped(lines[n].listing, reason) !in before;
    }
  }

  // ----- The service -----

  class CartService {
    var carts: map<Id, map<Id, nat>>
    var merges: map<(Id, Id), seq<Skipped>>

    constructor ()
      ensures carts == map[] && merges == map[]
    {
      carts := map[];
      merges := map[];
    }

    function CartOf(buyer: Id): map<Id, nat>
      reads this
    {
      if buyer in carts then carts[buyer] else map[]
    }

    // A refused line leaves every cart as it was; an accepted one changes one entry of one cart.
    method TryAddLine(shop: Shop, buyer: Id, line: Checkouts.Line) returns (refusal: Option<Error>)
      modifies this`carts
      ensures refusal == Refusal(shop, old(CartOf(buyer)), line)
      ensures refusal.Some? ==> carts == old(carts)
      ensures refusal.None? ==>
                carts == old(carts)[buyer := old(CartOf(buyer))[line.listing :=
                                               InCart(old(CartOf(buyer)), line.listing) + line.quantity]]
    {
      var cart: map<Id, nat> := CartOf(buyer);
      if line.listing !in cart && |cart| >= MAX_CART_ITEMS {
        return Some(CartFull);
      }
      var quantity: nat := if line.listing in cart then cart[line.listing] + line.quantity else line.quantity;
      if !IsOrderable(shop.listings, shop.verified, line.listing, quantity) {
        return Some(OrderRefusal(shop.listings, shop.verified, line.listing));
      }
      carts := carts[buyer := cart[line.listing := quantity]];
      return None;
    }

    method AddLines(shop: Shop, buyer: Id, lines: seq<Checkouts.Line>) returns (skipped: seq<Skipped>)
      modifies this`carts
      ensures Merged(CartOf(buyer), skipped) == AddAll(shop, old(CartOf(buyer)), lines)
      ensures forall b | b != buyer :: CartOf(b) == old(CartOf(b))
    {
      skipped := [];
      var i := 0;
      while i < |lines|
        invariant 0 <= i <= |lines|
        invariant Merged(CartOf(buyer), skipped) == AddAll(shop, old(CartOf(buyer)), lines[..i])
        invariant forall b | b != buyer :: CartOf(b) == old(CartOf(b))
      {
        assert lines[..i + 1][..i] == lines[..i];
        var refusal := TryAddLine(shop, buyer, lines[i]);
        if refusal.Some? {
          skipped := skipped + [Skipped(lines[i].listing, refusal.value)];
        }
        i := i + 1;
      }
      assert lines[..i] == lines;
    }

    // A repeated key is answered from what the first merge recorded, whatever it offers now.
    method MergeItems(shop: Shop, buyer: Id, key: Id, lines: seq<Checkouts.Line>) returns (skipped: seq<Skipped>)
      modifies this
      ensures old((buyer, key) in merges) ==>
                carts == old(carts) && merges == old(merges) && skipped == old(merges)[(buyer, key)]
      ensures old((buyer, key) !in merges) ==>
                && Merged(CartOf(buyer), skipped) == AddAll(shop, old(CartOf(buyer)), lines)
                && merges == old(merges)[(buyer, key) := skipped]
      ensures forall b | b != buyer :: CartOf(b) == old(CartOf(b))
    {
      if (buyer, key) in merges {
        return merges[(buyer, key)];
      }
      skipped := AddLines(shop, buyer, lines);
      merges := merges[(buyer, key) := skipped];
    }
  }
}
