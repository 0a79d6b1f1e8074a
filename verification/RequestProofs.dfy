/** What the admin's steps on a sourcing request keep. */
module RequestProofs {
  import opened Rows
  import Stock
  import opened Sourcing
  import opened Checkouts
  import opened Invariants
  import opened Evolution
  import opened SourcingProofs
  import opened CheckoutProofs

  // Statuses a request can be in only after its checkout was paid, or once it is over.
  predicate Sold(status: RequestStatus) {
    status.Confirmed? || status.Fulfilment? || status.Completed? || status.Closed?
  }

  // An edit of one request before anything is sold.
  ghost predicate MayEdit(s: State, r: Id, row: Request) {
    && r in s.requests && !Sold(s.requests[r].status)
    && row.buyer == s.requests[r].buyer && (s.requests[r].closed ==> row.closed)
    && (forall l | l in row.allocations :: row.allocations[l] > 0)
  }

  lemma EditedRefs(requests: map<Id, Request>, checkouts: map<Id, Checkout>, orders: map<Id, Order>, r: Id, row: Request)
    requires RequestRefs(requests, checkouts) && SyncedBut(Some(r), requests, checkouts, orders)
    requires forall l | l in row.allocations :: row.allocations[l] > 0
    requires r in requests
    ensures RequestRefs(requests[r := row], checkouts) && SyncedBut(Some(r), requests[r := row], checkouts, orders)
  {
    hide OneLiveEach, SyncedRow;
  }

  lemma EditedFresh(s: State, r: Id, row: Request)
    requires FreshOk(s) && r in s.requests
    ensures FreshOk(s.(requests := s.requests[r := row]))
  {
  }

  lemma EditedRequestsEvolve(s: State, t: State, r: Id, row: Request)
    requires MayEdit(s, r, row) && t.requests == s.requests[r := row]
    ensures RequestsEvolve(s.requests, Sync(t, Some(r)).requests)
  {
    hide ViewOf, DeriveRequestStatus, AllCancelled;
  }

  /** Whatever else a transaction did, it may edit its request and rewrite the status in the end. */
  lemma EditCommits(s: State, t: State, r: Id, row: Request)
    requires Inv(s) && InvBut(Some(r), t) && RowsEvolve(s, t) && t.requests == s.requests && MayEdit(s, r, row)
    ensures var u := Sync(t.(requests := t.requests[r := row]), Some(r)); Inv(u) && Evolves(s, u)
  {
    hide Stock.StockOk, CheckoutsOk, HandoversOk, ReadsOk, PaymentsOk, RefundsOk, PayoutsOk, Excluded, RequestRefs;
    hide SyncedBut, Sync, CartsOk, RequestsEvolve;
    hide OrdersEvolve, CheckoutsEvolve, PaymentsEvolve, RefundsEvolve, PayoutsEvolve, ItemsEvolve;
    hide FreshOk;
    var u := t.(requests := t.requests[r := row]);
    EditedFresh(t, r, row);
    EditedRefs(t.requests, t.checkouts, t.orders, r, row);
    SyncRestores(Some(r), u);
    SyncTouchesStatusOnly(u, Some(r));
    EditedRequestsEvolve(s, u, r, row);
  }

  lemma StaleIsWeaker(s: State, r: Id)
    requires Inv(s)
    ensures InvBut(Some(r), s)
  {
    hide Stock.StockOk, CheckoutsOk, HandoversOk, ReadsOk, PaymentsOk, RefundsOk, PayoutsOk, Excluded, RequestRefs;
    hide CartsOk, SyncedRow;
  }

  lemma EditKeeps(s: State, r: Id, row: Request)
    requires Inv(s) && MayEdit(s, r, row)
    ensures var u := Sync(s.(requests := s.requests[r := row]), Some(r)); Inv(u) && Evolves(s, u)
  {
    hide InvBut, RowsEvolve, RequestsEvolve, Sync, MayEdit;
    StaleIsWeaker(s, r);
    EvolvesReflexive(s);
    EditCommits(s, s, r, row);
  }

  lemma AssignAgentKeeps(s: State, r: Id, agent: Id, suits: bool)
    requires Inv(s) && AssignAgent(s, r, agent, suits).Ok?
    ensures var t := AssignAgent(s, r, agent, suits).value; Inv(t) && Evolves(s, t)
  {
    hide InvBut, Evolves, Sync;
    AllocationsPositive(s, r);
    EditKeeps(s, r, s.requests[r].(agent := Some(agent)));
  }

  // Line by line, the selection holds what each line asks for and nothing else.
  ghost predicate Holds(items: map<Id, nat>, lines: seq<Line>) {
    && (forall i | 0 <= i < |lines| :: lines[i].listing in items && items[lines[i].listing] == lines[i].quantity)
    && (forall l | l in items :: exists i | 0 <= i < |lines| :: lines[i].listing == l)
  }

  /**
   * A selection is accepted exactly when no listing is in it twice and every line is eligible, and then
   * holds each line's quantity.
   */
  lemma {:induction false} CheckedIff(s: State, lines: seq<Line>, matching: set<Id>)
    ensures Checked(s, lines, matching).Ok? <==>
              && Distinct(lines)
              && forall i | 0 <= i < |lines| :: ListingEligible(s, lines[i].listing, lines[i].quantity, matching)
    ensures Checked(s, lines, matching).Ok? ==> Holds(Checked(s, lines, matching).value, lines)
  {
    if lines != [] {
      var front, last := lines[..|lines| - 1], lines[|lines| - 1];
      OneLineMore(s, lines, matching);
      CheckedIff(s, front, matching);
      if Checked(s, front, matching).Ok? {
        var seen := Checked(s, front, matching).value;
        assert last.listing in seen <==> exists i | 0 <= i < |front| :: front[i].listing == last.listing;
        if Checked(s, lines, matching).Ok? {
          HoldsOneMore(seen, lines);
        }
      }
    }
  }

  lemma OneLineMore(s: State, lines: seq<Line>, matching: set<Id>)
    requires lines != []
    ensures var front, last := lines[..|lines| - 1], lines[|lines| - 1];
            && (Distinct(lines) <==>
                  Distinct(front) && !exists i | 0 <= i < |front| :: front[i].listing == last.listing)
            && ((forall i | 0 <= i < |lines| :: ListingEligible(s, lines[i].listing, lines[i].quantity, matching)) <==>
                  && (forall i | 0 <= i < |front| :: ListingEligible(s, front[i].listing, front[i].quantity, matching))
                  && ListingEligible(s, last.listing, last.quantity, matching))
  {
    hide ListingEligible;
    var front := lines[..|lines| - 1];
    assert forall i | 0 <= i < |front| :: lines[i] == front[i];
  }

  lemma HoldsOneMore(seen: map<Id, nat>, lines: seq<Line>)
    requires lines != [] && Holds(seen, lines[..|lines| - 1]) && lines[|lines| - 1].listing !in seen
    ensures Holds(seen[lines[|lines| - 1].listing := lines[|lines| - 1].quantity], lines)
  {
    var n := |lines| - 1;
    forall l | l in seen
      ensures exists i | 0 <= i < |lines| :: lines[i].listing == l
    {
      var i :| 0 <= i < n && lines[..n][i].listing == l;
      assert lines[i].listing == l;
    }
    forall i | 0 <= i < n
      ensures lines[i].listing in seen && seen[lines[i].listing] == lines[i].quantity
    {
      assert lines[..n][i] == lines[i];
    }
  }

  lemma SaveAllocationsKeeps(s: State, r: Id, lines: seq<Line>, matching: set<Id>)
    requires Inv(s) && (forall i | 0 <= i < |lines| :: lines[i].quantity > 0)
    requires SaveAllocations(s, r, lines, matching).Ok?
    ensures var t := SaveAllocations(s, r, lines, matching).value; Inv(t) && Evolves(s, t)
  {
    hide InvBut, Evolves, Sync, ListingEligible, Checked;
    CheckedIff(s, lines, matching);
    EditKeeps(s, r, s.requests[r].(allocations := Checked(s, lines, matching).value));
  }

  // Closing over the checkout the request is waiting on releases it.
  lemma CloseWithKeeps(s: State, r: Id, c: Id)
    requires Inv(s) && r in s.requests && !Sold(s.requests[r].status)
    requires c in s.checkouts && AwaitingFor(s.checkouts[c], r)
    ensures var closed := s.(requests := s.requests[r := s.requests[r].(closed := true)]);
            var u := Sync(Release(closed, c, CheckoutStatus.Cancelled), Some(r));
            Inv(u) && Evolves(s, u)
  {
    hide InvBut, Evolves, RowsEvolve, Sync, Returned, WithOrders, WithoutPending;
    var row := s.requests[r].(closed := true);
    var t := Release(s, c, CheckoutStatus.Cancelled);
    AllocationsPositive(s, r);
    ReleaseKeeps(s, c, CheckoutStatus.Cancelled);
    EditCommits(s, t, r, row);
    assert t.(requests := t.requests[r := row]) == Release(s.(requests := s.requests[r := row]), c, CheckoutStatus.Cancelled);
  }

  lemma CloseRequestKeeps(s: State, r: Id)
    requires Inv(s) && CloseRequest(s, r).Ok?
    ensures var t := CloseRequest(s, r).value; Inv(t) && Evolves(s, t)
  {
    hide InvBut, Evolves, Sync, Release;
    AllocationsPositive(s, r);
    if exists c | c in s.checkouts :: AwaitingFor(s.checkouts[c], r) {
      forall c | c in s.checkouts && AwaitingFor(s.checkouts[c], r) {
        CloseWithKeeps(s, r, c);
      }
    } else {
      EditKeeps(s, r, s.requests[r].(closed := true));
    }
  }

  lemma OpenedSynced(requests: map<Id, Request>, checkouts: map<Id, Checkout>, orders: map<Id, Order>, r: Id, buyer: Id,
                     requested: int)
    requires RequestRefs(requests, checkouts) && SyncedBut(None, requests, checkouts, orders) && r !in requests
    ensures var requests' := requests[r := Request(buyer, requested, New, false, None, map[])];
            RequestRefs(requests', checkouts) && SyncedBut(None, requests', checkouts, orders)
  {
    hide OneLiveEach, SyncedRow;
    NothingSeen(requests, checkouts, orders, r, Request(buyer, requested, New, false, None, map[]));
  }

  // Nothing refers to a request before it is opened.
  lemma NothingSeen(requests: map<Id, Request>, checkouts: map<Id, Checkout>, orders: map<Id, Order>, r: Id,
                    row: Request)
    requires RequestRefs(requests, checkouts) && r !in requests
    requires row.status.New? && !row.closed && row.agent.None? && row.allocations == map[]
    ensures SyncedRow(row, r, checkouts, orders)
  {
    assert !Has(checkouts, r, CheckoutStatus.Paid) && !Has(checkouts, r, CheckoutStatus.AwaitingPayment);
  }

  lemma OpenedFresh(s: State, r: Id, row: Request)
    requires FreshOk(s) && r == s.next
    ensures FreshOk(s.(requests := s.requests[r := row], next := s.next + 1)) && r !in s.requests
  {
  }

  lemma OpenRequestKeeps(s: State, buyer: Id, requested: int)
    requires Inv(s)
    ensures Inv(OpenRequest(s, buyer, requested)) && Evolves(s, OpenRequest(s, buyer, requested))
  {
    hide Stock.StockOk, CheckoutsOk, HandoversOk, PaymentsOk, RefundsOk, PayoutsOk, Excluded, RequestRefs, SyncedBut;
    hide CartsOk, FreshOk;
    OpenedFresh(s, s.next, Request(buyer, requested, New, false, None, map[]));
    OpenedSynced(s.requests, s.checkouts, s.orders, s.next, buyer, requested);
  }
}
