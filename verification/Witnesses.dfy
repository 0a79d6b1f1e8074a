/** Two runs that show where a natural reading of the program goes further than the program does. */
module Witnesses {
  import opened Rows
  import opened Sums
  import opened Invariants
  import opened Evolution
  import opened Runs
  import Stock
  import Sourcing
  import Checkouts
  import Quote

  function Empty(): State {
    State(map[], {1}, map[], map[], map[], map[], map[], map[], map[], map[], map[], map[], map[], map[], 0)
  }

  function Tomatoes(): Listing {
    Listing(1, 2, 100, 5, 5, Published, 5)
  }

  // One listing, published by farm 1.
  function Listed(): State {
    Empty().(listings := map[0 := Tomatoes()], next := 1)
  }

  lemma ListedReachable(config: Config)
    ensures Reachable(config, Listed())
  {
    hide Reachable;
    EmptyReachable(config);
    ReachableNext(config, Empty(), Shop(CreateListing(1, 2, 100, 5, Published)));
    assert Stock.CreateListing(Empty(), 1, 2, 100, 5, Published) == Listed();
  }

  lemma EmptyReachable(config: Config)
    ensures Reachable(config, Empty())
  {
    hide Legacy;
    EmptyIsLegacy(Empty());
    assert Run(config, Empty(), []) == Empty();
  }

  // ----- A disabled listing put back on sale -----

  function Disabled(): State {
    Listed().(listings := map[0 := Tomatoes().(status := ProduceStatus.Disabled)],
              listingReads := map[0 := Read(0, Tomatoes())])
  }

  lemma DisabledReachable(config: Config)
    ensures Reachable(config, Disabled())
  {
    hide Reachable;
    var seen := Listed().(listingReads := map[0 := Read(0, Tomatoes())]);
    ListedReachable(config);
    ReachableNext(config, Listed(), Shop(ReadListing(0, 0)));
    assert Stock.ReadListing(Listed(), 0, 0) == Ok(seen);
    ReachableNext(config, seen, Shop(DisableListing(0)));
    assert seen.listings[0 := Tomatoes().(status := ProduceStatus.Disabled)] == Disabled().listings;
    assert Stock.DisableListing(seen, 0) == Ok(Disabled());
  }

  /**
   * The comment on a farmer's edit says a disabled listing stays disabled. The edit checks that on the
   * row it read, and writes under a guard on the two counters only, so an edit read before the disable
   * puts the listing back on sale.
   */
  lemma StaleEditReopens(config: Config)
    ensures Reachable(config, Disabled()) && Disabled().listings[0].status.Disabled?
    ensures var t := After(config, Disabled(), Shop(UpdateListing(0, None, None, None)));
            0 in t.listings && t.listings[0].status.Published?
  {
    hide Reachable;
    DisabledReachable(config);
  }

  // ----- A closed request that gains a checkout -----

  // Listed, with request 1 of buyer 7 at some point of its life.
  function Asked(row: Request): State {
    Listed().(requests := map[1 := row], next := 2)
  }

  function NewRow(): Request {
    Request(7, 1, New, false, None, map[])
  }

  function StaffedRow(): Request {
    NewRow().(agent := Some(9), status := InReview)
  }

  function SavedRow(): Request {
    StaffedRow().(allocations := map[0 := 1], status := FindingSupply)
  }

  function ClosedRow(): Request {
    SavedRow().(closed := true, status := RequestStatus.Closed)
  }

  lemma NothingPlaced(row: Request)
    ensures Sourcing.ViewOf(row, 1, map[], map[])
            == Sourcing.Snapshot(row.closed, row.agent, |row.allocations|, false, None)
  {
  }

  lemma SyncIs(s: State, row: Request, status: RequestStatus)
    requires s.checkouts == map[] && s.orders == map[] && s.requests == map[1 := row]
    requires status == Sourcing.DeriveRequestStatus(Sourcing.Snapshot(row.closed, row.agent, |row.allocations|, false, None))
    ensures Sourcing.Sync(s, Some(1)) == s.(requests := map[1 := row.(status := status)])
  {
    NothingPlaced(row);
  }

  // A step that edits the request and rewrites its status.
  lemma AskedNext(row: Request, edited: Request, after: Request)
    requires after == edited.(status := after.status)
    requires after.status ==
               Sourcing.DeriveRequestStatus(Sourcing.Snapshot(edited.closed, edited.agent, |edited.allocations|, false, None))
    ensures Sourcing.Sync(Asked(row).(requests := Asked(row).requests[1 := edited]), Some(1)) == Asked(after)
  {
    hide Sourcing.Sync;
    var s := Asked(row).(requests := Asked(row).requests[1 := edited]);
    assert s.requests == map[1 := edited];
    SyncIs(s, edited, after.status);
    assert s.(requests := map[1 := after]) == Asked(after);
  }

  lemma Commits(config: Config, s: State, e: ShopEvent, t: State)
    requires Reachable(config, s) && ApplyShop(config, s, e) == Ok(t)
    ensures Reachable(config, t)
  {
    hide Reachable, ApplyShop;
    ReachableNext(config, s, Shop(e));
  }

  lemma StaffedReachable(config: Config)
    ensures Reachable(config, Asked(StaffedRow()))
  {
    hide Reachable, Sourcing.Sync;
    ListedReachable(config);
    assert Sourcing.OpenRequest(Listed(), 7, 1) == Asked(NewRow());
    Commits(config, Listed(), OpenRequest(7, 1), Asked(NewRow()));
    AskedNext(NewRow(), NewRow().(agent := Some(9)), StaffedRow());
    assert Sourcing.AssignAgent(Asked(NewRow()), 1, 9, true) == Ok(Asked(StaffedRow()));
    Commits(config, Asked(NewRow()), AssignAgent(1, 9, true), Asked(StaffedRow()));
  }

  lemma SavedReachable(config: Config)
    ensures Reachable(config, Asked(SavedRow()))
  {
    hide Reachable, Sourcing.Sync;
    StaffedReachable(config);
    AskedNext(StaffedRow(), StaffedRow().(allocations := map[0 := 1]), SavedRow());
    var lines := [Checkouts.Line(0, 1)];
    assert lines[..0] == [] && Checkouts.Checked(Asked(StaffedRow()), lines, {0}) == Ok(map[0 := 1]);
    assert Checkouts.SaveAllocations(Asked(StaffedRow()), 1, lines, {0}) == Ok(Asked(SavedRow()));
    Commits(config, Asked(StaffedRow()), SaveAllocations(1, lines, {0}), Asked(SavedRow()));
  }

  lemma ClosedReachable(config: Config)
    ensures Reachable(config, Asked(ClosedRow()))
  {
    hide Reachable, Sourcing.Sync, Checkouts.Release;
    SavedReachable(config);
    AskedNext(SavedRow(), SavedRow().(closed := true), ClosedRow());
    assert Checkouts.CloseRequest(Asked(SavedRow()), 1) == Ok(Asked(ClosedRow()));
    Commits(config, Asked(SavedRow()), CloseRequest(1), Asked(ClosedRow()));
  }

  lemma OneSelected()
    ensures Checkouts.Selected(map[0 := 1]) == 1
  {
    var pick: map<Id, nat> := map[0 := 1];
    SumTake(pick, (quantity: nat) => quantity, 0);
    assert pick - {0} == map[];
  }

  /**
   * Confirming a selection does not look at whether the request was closed, so a closed request can
   * still gain a checkout. It stays CLOSED all the same.
   */
  lemma ClosedRequestGains(config: Config)
    ensures var s := Asked(ClosedRow());
            && Reachable(config, s) && s.requests[1].status.Closed?
            && var lines := Checkouts.SortedLines(map[0 := 1]);
            && var quote := Quote.QuotedTotal(config, s.listings, s.verified, lines);
            && var e := Shop(ConfirmRequest(1, Checkouts.Draft(7, 3, quote, true), {0}, 0));
            && var t := After(config, s, e);
            Checkouts.HasLive(t.checkouts, 1) && 1 in t.requests && t.requests[1].status.Closed?
  {
    hide Reachable, Sourcing.Sync, Quote.QuotedTotal, Checkouts.Selected, Checkouts.SortedLines, Checkouts.Place, Checkouts.HasLive;
    var s := Asked(ClosedRow());
    ClosedReachable(config);
    OneSelected();
    var lines := Checkouts.SortedLines(map[0 := 1]);
    var draft := Checkouts.Draft(7, 3, Quote.QuotedTotal(config, s.listings, s.verified, lines), true);
    var e := Shop(ConfirmRequest(1, draft, {0}, 0));
    Quote.ConfirmIgnoresClosing(s, config, 1, draft, {0}, 0);
    StaysClosed(config, s, e);
  }

  lemma StaysClosed(config: Config, s: State, e: Event)
    requires Reachable(config, s) && 1 in s.requests && s.requests[1].status.Closed?
    ensures var t := After(config, s, e); 1 in t.requests && t.requests[1].status.Closed?
  {
    hide Reachable, Inv, After;
    hide OrdersEvolve, CheckoutsEvolve, PaymentsEvolve, RefundsEvolve, PayoutsEvolve, ItemsEvolve;
    ReachableOk(config, s);
    StepKeeps(config, s, e);
  }
}
