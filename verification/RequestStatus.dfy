/**
 * What each status of a sourcing request says about its other rows, read off the rows themselves, and
 * what an admin may still change in it.
 */
module RequestStatus {
  import opened Rows
  import opened Sums
  import opened Sourcing
  import opened Checkouts
  import opened Invariants
  import opened Runs
  import SourcingSafety
  import PaymentSafety
  import RequestProofs
  import SourcingProofs
  import opened Frames

  /** The checkout a request is served by: unpaid or paid, of which it has at most one. */
  predicate Serves(s: State, c: Id, r: Id) {
    c in s.checkouts && s.checkouts[c].request == Some(r) &&
    (s.checkouts[c].status.AwaitingPayment? || s.checkouts[c].status.Paid?)
  }

  predicate Unserved(s: State, r: Id) {
    forall c | c in s.checkouts :: !Serves(s, c, r)
  }

  /** The statuses of a checkout's orders. */
  function Statuses(s: State, c: Id): set<OrderStatus> {
    set o | o in s.orders && s.orders[o].checkout == Some(c) :: s.orders[o].status
  }

  // ----- The view a status is derived from, and the rows it is a view of -----

  lemma ServedView(s: State, r: Id, c: Id)
    requires Inv(s) && r in s.requests && Serves(s, c, r)
    ensures var view := ViewOf(s.requests[r], r, s.checkouts, s.orders);
            && view.awaiting == s.checkouts[c].status.AwaitingPayment?
            && (view.paid.Some? <==> s.checkouts[c].status.Paid?)
            && (view.paid.Some? ==> view.paid.value == Statuses(s, c))
  {
    hide InvBut, SyncedBut;
    SourcingSafety.RequestTables(s);
    forall d | d in s.checkouts && s.checkouts[d].request == Some(r) && LiveCheckout(s.checkouts[d])
      ensures d == c
    {
    }
    assert s.checkouts[c].status.Paid? ==> Has(s.checkouts, r, CheckoutStatus.Paid);
    assert s.checkouts[c].status.AwaitingPayment? ==> Has(s.checkouts, r, CheckoutStatus.AwaitingPayment);
    if s.checkouts[c].status.Paid? {
      PaidView(s, r, c);
    }
  }

  lemma PaidView(s: State, r: Id, c: Id)
    requires c in s.checkouts && s.checkouts[c].request == Some(r) && s.checkouts[c].status.Paid?
    requires forall d | d in s.checkouts && s.checkouts[d].request == Some(r) && LiveCheckout(s.checkouts[d]) :: d == c
    ensures PaidOrders(s.checkouts, s.orders, r) == Statuses(s, c)
  {
    forall o | o in s.orders
      ensures OrderOfPaid(s.checkouts, s.orders[o], r) <==> s.orders[o].checkout == Some(c)
    {
    }
  }

  lemma UnservedView(s: State, r: Id)
    requires r in s.requests && Unserved(s, r)
    ensures var view := ViewOf(s.requests[r], r, s.checkouts, s.orders); !view.awaiting && view.paid.None?
  {
    forall c | c in s.checkouts && s.checkouts[c].request == Some(r)
      ensures !s.checkouts[c].status.AwaitingPayment? && !s.checkouts[c].status.Paid?
    {
      assert !Serves(s, c, r);
    }
  }

  // Every checkout has an order.
  lemma HasOrder(s: State, c: Id)
    requires Inv(s) && c in s.checkouts
    ensures Statuses(s, c) != {}
  {
    hide Inv, OrderFits;
    PaymentSafety.CheckoutTables(s);
    if o :| o in s.orders && s.orders[o].checkout == Some(c) {
      assert s.orders[o].status in Statuses(s, c);
    } else {
      SumZero(s.orders, PricedOn(c));
    }
  }

  lemma Derived(s: State, r: Id)
    requires Inv(s) && r in s.requests
    ensures var view := ViewOf(s.requests[r], r, s.checkouts, s.orders);
            s.requests[r].status == DeriveRequestStatus(view) && (AllCancelled(view.paid) ==> s.requests[r].closed)
            && view.closed == s.requests[r].closed
  {
    hide InvBut;
    SourcingSafety.RequestTables(s);
    assert SyncedRow(s.requests[r], r, s.checkouts, s.orders);
  }

  // ----- The eight statuses -----

  /** A request served by no checkout stands by its selection and its agent alone. */
  lemma UnservedStatus(config: Config, s: State, r: Id)
    requires Reachable(config, s) && r in s.requests && Unserved(s, r)
    ensures var row := s.requests[r];
            && (row.status.Closed? <==> row.closed)
            && (row.status.FindingSupply? <==> !row.closed && row.allocations != map[])
            && (row.status.InReview? <==> !row.closed && row.allocations == map[] && row.agent.Some?)
            && (row.status.New? <==> !row.closed && row.allocations == map[] && row.agent.None?)
  {
    hide Reachable, Inv, ViewOf, Unserved;
    ReachableOk(config, s);
    Derived(s, r);
    UnservedView(s, r);
    ViewOfRow(s, r);
  }

  lemma ViewOfRow(s: State, r: Id)
    requires r in s.requests
    ensures var view := ViewOf(s.requests[r], r, s.checkouts, s.orders);
            && view.closed == s.requests[r].closed && view.agent == s.requests[r].agent
            && (view.allocations > 0 <==> s.requests[r].allocations != map[])
  {
    if s.requests[r].allocations != map[] {
      var l :| l in s.requests[r].allocations;
      assert |s.requests[r].allocations| > 0;
    }
  }

  /** While the checkout serving a request awaits payment, the request awaits its buyer, unless it is closed. */
  lemma AwaitingStatus(config: Config, s: State, r: Id, c: Id)
    requires Reachable(config, s) && r in s.requests && Serves(s, c, r) && s.checkouts[c].status.AwaitingPayment?
    ensures s.requests[r].status == if s.requests[r].closed then Closed else AwaitingBuyer
  {
    hide Reachable, Inv, ViewOf, Serves;
    ReachableOk(config, s);
    Derived(s, r);
    ServedView(s, r, c);
  }

  /**
   * Once the checkout serving a request is paid, its orders decide: closed if the request was closed, as it is
   * once all are cancelled; completed when something was delivered and nothing is left to do; in fulfilment
   * when anything is ready or further; and otherwise confirmed.
   */
  lemma PaidStatus(config: Config, s: State, r: Id, c: Id)
    requires Reachable(config, s) && r in s.requests && Serves(s, c, r) && s.checkouts[c].status.Paid?
    ensures var row := s.requests[r];
            var statuses := Statuses(s, c);
            var over, moving := statuses <= {Fulfilled, OrderStatus.Cancelled}, statuses * {Ready, Shipped, Fulfilled} != {};
            && (statuses == {OrderStatus.Cancelled} ==> row.closed)
            && (row.status.Closed? <==> row.closed)
            && (row.status.Completed? <==> !row.closed && Fulfilled in statuses && over)
            && (row.status.Fulfilment? <==> !row.closed && moving && !over)
            && (row.status.Confirmed? <==> !row.closed && !moving)
  {
    hide Reachable, Inv, ViewOf, Statuses;
    ReachableOk(config, s);
    Derived(s, r);
    ServedView(s, r, c);
    HasOrder(s, c);
    PaidSets(Statuses(s, c));
  }

  lemma PaidSets(statuses: set<OrderStatus>)
    requires statuses != {}
    ensures AnyMoving(statuses) <==> statuses * {Ready, Shipped, Fulfilled} != {}
    ensures statuses <= {Fulfilled, OrderStatus.Cancelled} && Fulfilled !in statuses <==> statuses == {OrderStatus.Cancelled}
    ensures AllCancelled(Some(statuses)) <==> statuses == {OrderStatus.Cancelled}
  {
    assert Ready in statuses ==> Ready in statuses * {Ready, Shipped, Fulfilled};
    assert Shipped in statuses ==> Shipped in statuses * {Ready, Shipped, Fulfilled};
    assert Fulfilled in statuses ==> Fulfilled in statuses * {Ready, Shipped, Fulfilled};
    var some :| some in statuses;
  }

  // ----- What may still be changed -----

  predicate Editable(s: State, r: Id)
    requires r in s.requests
  {
    !s.requests[r].closed && Unserved(s, r)
  }

  lemma OpenIffEditable(config: Config, s: State, r: Id)
    requires Reachable(config, s) && r in s.requests
    ensures OpenForMatch(s.requests[r].status) <==> Editable(s, r)
  {
    hide Reachable, Serves;
    if c :| Serves(s, c, r) {
      assert c in s.checkouts && (s.checkouts[c].status.AwaitingPayment? || s.checkouts[c].status.Paid?) by { ServesLive(s, c, r); }
      if s.checkouts[c].status.AwaitingPayment? {
        AwaitingStatus(config, s, r, c);
      } else {
        PaidStatus(config, s, r, c);
      }
    } else {
      assert Unserved(s, r) by { NobodyServes(s, r); }
      UnservedStatus(config, s, r);
    }
  }

  lemma ServesLive(s: State, c: Id, r: Id)
    requires Serves(s, c, r)
    ensures c in s.checkouts && (s.checkouts[c].status.AwaitingPayment? || s.checkouts[c].status.Paid?)
  {
  }

  lemma NobodyServes(s: State, r: Id)
    requires forall c :: !Serves(s, c, r)
    ensures Unserved(s, r)
  {
  }

  /** An agent can be assigned exactly while the request is neither closed nor served by a checkout, paid or not. */
  lemma AssignIff(config: Config, s: State, r: Id, agent: Id, suits: bool)
    requires Reachable(config, s)
    ensures Sourcing.AssignAgent(s, r, agent, suits).Ok? <==> r in s.requests && Editable(s, r) && suits
    ensures Sourcing.AssignAgent(s, r, agent, suits).Ok? ==>
              var t := Sourcing.AssignAgent(s, r, agent, suits).value;
              r in t.requests && t.requests[r].agent == Some(agent) && t.requests[r].allocations == s.requests[r].allocations
  {
    hide Reachable, Sync, Editable;
    if r in s.requests {
      OpenIffEditable(config, s, r);
      SourcingProofs.SyncTouchesStatusOnly(s.(requests := s.requests[r := s.requests[r].(agent := Some(agent))]), Some(r));
    }
  }

  /** A line that may be selected: a published listing that fits, of a verified farm, with enough left of it. */
  predicate OnOffer(s: State, line: Line, matching: set<Id>) {
    && line.listing in s.listings && line.listing in matching
    && var row := s.listings[line.listing];
    row.status.Published? && row.farm in s.verified && row.floating > 0 && line.quantity <= row.floating
  }

  lemma OnOfferIsEligible(s: State, lines: seq<Line>, matching: set<Id>)
    ensures (forall i | 0 <= i < |lines| :: OnOffer(s, lines[i], matching)) <==>
            (forall i | 0 <= i < |lines| :: ListingEligible(s, lines[i].listing, lines[i].quantity, matching))
  {
    forall i | 0 <= i < |lines|
      ensures OnOffer(s, lines[i], matching) <==> ListingEligible(s, lines[i].listing, lines[i].quantity, matching)
    {
    }
  }

  /** A selection can be saved exactly while the same holds, an agent is assigned and every line is acceptable. */
  lemma SaveIff(config: Config, s: State, r: Id, lines: seq<Line>, matching: set<Id>)
    requires Reachable(config, s)
    ensures Checkouts.SaveAllocations(s, r, lines, matching).Ok? <==>
              && r in s.requests && Editable(s, r) && s.requests[r].agent.Some? && Distinct(lines)
              && forall i | 0 <= i < |lines| :: OnOffer(s, lines[i], matching)
    ensures Checkouts.SaveAllocations(s, r, lines, matching).Ok? ==>
              var t := Checkouts.SaveAllocations(s, r, lines, matching).value;
              && r in t.requests && RequestProofs.Holds(t.requests[r].allocations, lines)
              && t.requests[r].agent == s.requests[r].agent
  {
    hide Reachable, Sync, Editable, Checked, ListingEligible, OnOffer, RequestProofs.Holds;
    OnOfferIsEligible(s, lines, matching);
    if r in s.requests {
      OpenIffEditable(config, s, r);
      RequestProofs.CheckedIff(s, lines, matching);
      if Checked(s, lines, matching).Ok? {
        var items := Checked(s, lines, matching).value;
        SourcingProofs.SyncTouchesStatusOnly(s.(requests := s.requests[r := s.requests[r].(allocations := items)]), Some(r));
      }
    }
  }

  /** A request can be closed exactly once, and only while no checkout of it is paid. */
  lemma CloseIff(config: Config, s: State, r: Id)
    requires Reachable(config, s)
    ensures Checkouts.CloseRequest(s, r).Ok? <==>
              && r in s.requests && !s.requests[r].closed
              && forall c | Serves(s, c, r) :: !s.checkouts[c].status.Paid?
  {
    hide Reachable, Sync, Release, Serves;
    if r in s.requests {
      if c :| Serves(s, c, r) {
        ServesLive(s, c, r);
        if s.checkouts[c].status.AwaitingPayment? {
          AwaitingStatus(config, s, r, c);
          SoleServes(config, s, r, c);
        } else {
          PaidStatus(config, s, r, c);
        }
      } else {
        NobodyServes(s, r);
        UnservedStatus(config, s, r);
      }
    }
  }

  lemma SoleServes(config: Config, s: State, r: Id, c: Id)
    requires Reachable(config, s) && Serves(s, c, r)
    ensures forall d | Serves(s, d, r) :: d == c
  {
    hide Reachable;
    forall d | Serves(s, d, r)
      ensures d == c
    {
      SourcingSafety.OneLiveCheckout(config, s, c, d);
    }
  }

  /** While a checkout of the request awaits payment, neither its selection nor its agent changes. */
  lemma NoEditsWhileAwaiting(config: Config, s: State, r: Id, c: Id, agent: Id, lines: seq<Line>, matching: set<Id>)
    requires Reachable(config, s) && r in s.requests
    requires c in s.checkouts && s.checkouts[c].request == Some(r) && s.checkouts[c].status.AwaitingPayment?
    ensures Sourcing.AssignAgent(s, r, agent, true) == Refused(MatchingClosed)
    ensures Checkouts.SaveAllocations(s, r, lines, matching).Refused?
  {
    hide Reachable, Sync, Checked, OpenForMatch;
    assert Serves(s, c, r);
    OpenIffEditable(config, s, r);
  }
}
