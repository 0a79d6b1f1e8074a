/** Sourcing requests over whole runs. */
module SourcingSafety {
  import opened Rows
  import Stock
  import opened Sourcing
  import opened Checkouts
  import opened Invariants
  import opened Evolution
  import opened Runs
  import SourcingProofs

  lemma RequestTables(s: State)
    requires Inv(s)
    ensures RequestRefs(s.requests, s.checkouts) && SyncedBut(None, s.requests, s.checkouts, s.orders)
  {
    hide Stock.StockOk, CheckoutsOk, HandoversOk, ReadsOk, PaymentsOk, RefundsOk, PayoutsOk, Excluded, RequestRefs;
    hide SyncedBut, CartsOk;
  }

  /** The status a request stores is always the one its rows derive, and a derived close is recorded. */
  lemma StatusIsDerived(config: Config, s: State, r: Id)
    requires Reachable(config, s) && r in s.requests
    ensures var view := ViewOf(s.requests[r], r, s.checkouts, s.orders);
            s.requests[r].status == DeriveRequestStatus(view) && (AllCancelled(view.paid) ==> s.requests[r].closed)
  {
    hide Reachable, Inv;
    ReachableOk(config, s);
    RequestTables(s);
  }

  /** A request never has two checkouts that are unpaid or paid. */
  lemma OneLiveCheckout(config: Config, s: State, c: Id, d: Id)
    requires Reachable(config, s) && c in s.checkouts && d in s.checkouts
    requires s.checkouts[c].request.Some? && s.checkouts[c].request == s.checkouts[d].request
    requires LiveCheckout(s.checkouts[c]) && LiveCheckout(s.checkouts[d])
    ensures c == d
  {
    hide Reachable, Inv;
    ReachableOk(config, s);
    RequestTables(s);
  }

  /** CLOSED and COMPLETED are final, and a request in fulfilment never falls back to confirmed. */
  lemma RequestsMoveOn(config: Config, s: State, events: seq<Event>, r: Id)
    requires Reachable(config, s) && r in s.requests
    ensures var t := Run(config, s, events);
            && r in t.requests
            && (s.requests[r].status.Closed? ==> t.requests[r].status.Closed?)
            && (s.requests[r].status.Completed? ==> t.requests[r].status.Completed?)
            && (s.requests[r].status.Fulfilment? ==> t.requests[r].status.Fulfilment? || t.requests[r].status.Completed?)
            && (s.requests[r].status.Confirmed? ==>
                  !t.requests[r].status.New? && !t.requests[r].status.InReview? &&
                  !t.requests[r].status.FindingSupply? && !t.requests[r].status.AwaitingBuyer?)
  {
    hide Reachable, Inv, Run, OrdersEvolve, CheckoutsEvolve, PaymentsEvolve, RefundsEvolve, PayoutsEvolve, ItemsEvolve;
    ReachableOk(config, s);
    RunKeeps(config, s, events);
  }

  /** Closing can only commit while no checkout of the request is paid, so no paid order is abandoned by it. */
  lemma ClosesOnlyUnpaid(config: Config, s: State, r: Id)
    requires Reachable(config, s) && Checkouts.CloseRequest(s, r).Ok?
    ensures !Has(s.checkouts, r, CheckoutStatus.Paid)
  {
    hide Reachable, Inv, Release, Sync;
    ReachableOk(config, s);
    RequestTables(s);
    assert SyncedRow(s.requests[r], r, s.checkouts, s.orders);
  }

  lemma EndedNotLive(checkouts: map<Id, Checkout>, c: Id, r: Id)
    requires OneLiveEach(checkouts) && c in checkouts && AwaitingFor(checkouts[c], r)
    ensures !HasLive(checkouts[c := checkouts[c].(status := CheckoutStatus.Cancelled)], r)
  {
  }

  lemma ReleasedCheckouts(s: State, c: Id, r: Id)
    requires c in s.checkouts
    ensures Sync(Release(s, c, CheckoutStatus.Cancelled), Some(r)).checkouts
            == s.checkouts[c := s.checkouts[c].(status := CheckoutStatus.Cancelled)]
    ensures Sync(s, Some(r)).checkouts == s.checkouts
  {
    hide Sync, Returned, WithOrders, WithoutPending;
    SourcingProofs.SyncTouchesStatusOnly(Release(s, c, CheckoutStatus.Cancelled), Some(r));
    SourcingProofs.SyncTouchesStatusOnly(s, Some(r));
  }

  /** Closing leaves no checkout of the request waiting to be paid. */
  lemma ClosingReleases(config: Config, s: State, r: Id)
    requires Reachable(config, s) && Checkouts.CloseRequest(s, r).Ok?
    ensures !HasLive(Checkouts.CloseRequest(s, r).value.checkouts, r)
  {
    hide Reachable, Inv, Sync, Release, HasLive;
    ReachableOk(config, s);
    RequestTables(s);
    ClosesOnlyUnpaid(config, s, r);
    var closed := s.(requests := s.requests[r := s.requests[r].(closed := true)]);
    if exists c | c in s.checkouts :: AwaitingFor(s.checkouts[c], r) {
      forall c | c in s.checkouts && AwaitingFor(s.checkouts[c], r)
        ensures !HasLive(Sync(Release(closed, c, CheckoutStatus.Cancelled), Some(r)).checkouts, r)
      {
        ReleasedCheckouts(closed, c, r);
        EndedNotLive(s.checkouts, c, r);
      }
    } else {
      NoneLive(s.checkouts, r);
      SourcingProofs.SyncTouchesStatusOnly(closed, Some(r));
    }
  }

  lemma NoneLive(checkouts: map<Id, Checkout>, r: Id)
    requires !Has(checkouts, r, CheckoutStatus.Paid)
    requires !exists c | c in checkouts :: AwaitingFor(checkouts[c], r)
    ensures !HasLive(checkouts, r)
  {
    forall c | c in checkouts && checkouts[c].request == Some(r)
      ensures !Live(checkouts[c].status)
    {
      assert !AwaitingFor(checkouts[c], r);
    }
  }
}
