/**
 * Several steps act on a row read before their transaction began. The guards they write under make
 * that harmless: a step that commits on a stale row commits what it would have on the current one.
 */
module Staleness {
  import opened Rows
  import opened Stock
  import opened Orders
  import opened Sourcing
  import opened Invariants
  import OrderProofs

  /** The same state with the session's row read afresh. */
  function Refreshed(s: State, session: Id): State
    requires session in s.orderReads && s.orderReads[session].id in s.orders
  {
    var o := s.orderReads[session].id;
    s.(orderReads := s.orderReads[session := Read(o, s.orders[o])])
  }

  // Two results that differ at most in what sessions have read.
  predicate SameCommit(a: Result<State>, b: Result<State>) {
    a.Ok? && b.Ok? && a.value == b.value.(orderReads := a.value.orderReads)
  }

  lemma SeenSame(s: State, session: Id)
    requires Inv(s) && session in s.orderReads && s.orderReads[session].id in s.orders
    ensures SameFacts(s.orderReads[session].row, s.orders[s.orderReads[session].id])
  {
    hide Inv;
    OrderProofs.SeenFacts(s, session);
  }

  lemma SyncForgetsReads(s: State, request: Option<Id>, reads': map<Id, Read<Order>>)
    ensures Sync(s.(orderReads := reads'), request) == Sync(s, request).(orderReads := reads')
  {
    hide ViewOf, Resynced;
    var t := s.(orderReads := reads');
    if request.Some? && request.value in s.requests {
      var r := request.value;
      var row := Resynced(s.requests[r], ViewOf(s.requests[r], r, s.checkouts, s.orders));
      assert Sync(s, request) == s.(requests := s.requests[r := row]);
      assert Sync(t, request) == t.(requests := t.requests[r := row]);
    }
  }

  /** Confirming on a stale row, if it commits at all, commits what it would have on the current one. */
  lemma StaleConfirmHarmless(s: State, session: Id)
    requires Inv(s) && Confirm(s, session).Ok?
    ensures s.orderReads[session].id in s.orders
    ensures SameCommit(Confirm(s, session), Confirm(Refreshed(s, session), session))
  {
    hide Inv, Sync;
    SeenSame(s, session);
    var o := s.orderReads[session].id;
    var row := s.listings[s.orders[o].listing];
    var order := s.orders[o].(status := OrderStatus.Confirmed);
    var t := s.(listings := s.listings[s.orders[o].listing := Restatused(row.(actual := row.actual - s.orders[o].quantity))],
                orders := s.orders[o := order]);
    SyncForgetsReads(t, RequestOf(s, order), Refreshed(s, session).orderReads);
    assert Confirm(s, session) == Ok(Sync(t, RequestOf(t, order)));
  }

  /** Cancelling on a stale row, if it commits at all, gives back what the current one holds. */
  lemma StaleCancelHarmless(s: State, session: Id, seller: bool)
    requires Inv(s) && Cancel(s, session, seller).Ok?
    ensures s.orderReads[session].id in s.orders
    ensures SameCommit(Cancel(s, session, seller), Cancel(Refreshed(s, session), session, seller))
  {
    hide Inv, Sync;
    SeenSame(s, session);
    var o := s.orderReads[session].id;
    var order := s.orders[o].(status := OrderStatus.Cancelled);
    var t := s.(listings := ReleaseStock(s.listings, s.orders[o]), orders := s.orders[o := order]);
    SyncForgetsReads(t, RequestOf(s, order), Refreshed(s, session).orderReads);
    assert Cancel(s, session, seller) == Ok(Sync(t, RequestOf(t, order)));
  }

  lemma MovedForgetsReads(s: State, o: Id, row: Order, reads': map<Id, Read<Order>>)
    ensures Moved(s.(orderReads := reads'), o, row) == Moved(s, o, row).(orderReads := reads')
  {
    hide Sync;
    var t := s.(orders := s.orders[o := row]);
    SyncForgetsReads(t, RequestOf(s, row), reads');
    assert t.(orderReads := reads') == s.(orderReads := reads').(orders := s.orders[o := row]);
  }

  function ReadyRow(s: State, o: Id): Order
    requires o in s.orders
  {
    s.orders[o].(status := Ready,
                 handover := Some(Handover(HandoverStatus.Pending, AgentOf(s.clusters, s.orders[o].farm))))
  }

  lemma MarkReadyIs(s: State, session: Id, list: Id)
    requires MarkReady(s, session, list).Ok?
    requires s.orderReads[session].row.farm == s.orders[s.orderReads[session].id].farm
    ensures MarkReady(s, session, list) == Ok(Moved(s, s.orderReads[session].id, ReadyRow(s, s.orderReads[session].id)))
  {
    hide Moved;
  }

  lemma MarkReadyAgain(s: State, session: Id, list: Id)
    requires MarkReady(s, session, list).Ok?
    ensures MarkReady(Refreshed(s, session), session, session).Ok?
  {
    hide Moved;
  }

  /**
   * Marking ready on a stale order and a stale checklist, read at different moments, if it commits at all,
   * hands over what one fresh read of both would.
   */
  lemma StaleMarkReadyHarmless(s: State, session: Id, list: Id)
    requires Inv(s) && MarkReady(s, session, list).Ok?
    ensures s.orderReads[session].id in s.orders
    ensures SameCommit(MarkReady(s, session, list), MarkReady(Refreshed(s, session), session, session))
  {
    hide Inv, Moved;
    var o := s.orderReads[session].id;
    var t := Refreshed(s, session);
    SeenSame(s, session);
    MarkReadyIs(s, session, list);
    MarkReadyAgain(s, session, list);
    MarkReadyIs(t, session, session);
    assert ReadyRow(t, o) == ReadyRow(s, o);
    MovedForgetsReads(s, o, ReadyRow(s, o), t.orderReads);
  }

  /** Deleting a legacy order on a stale row, if it commits at all, gives back what the current one holds. */
  lemma StaleRemoveHarmless(s: State, session: Id, buyer: Id)
    requires Inv(s) && Remove(s, session, buyer).Ok?
    ensures s.orderReads[session].id in s.orders
    ensures SameCommit(Remove(s, session, buyer), Remove(Refreshed(s, session), session, buyer))
  {
    hide Inv;
    SeenSame(s, session);
  }

  /**
   * A farmer's edit computed from a stale row, if it commits, sets both counters as the same edit of
   * the current row would; the shop status is the one thing it can get wrong.
   */
  lemma StaleEditCounters(s: State, session: Id, actual: Option<nat>, status: Option<ProduceStatus>, price: Option<nat>)
    requires UpdateListing(s, session, actual, status, price).Ok?
    ensures var Read(l, seen) := s.listingReads[session];
            var row := UpdateListing(s, session, actual, status, price).value.listings[l];
            l in s.listings &&
            row == Edited(s.listings[l], actual, status, price).(status := Edited(seen, actual, status, price).status)
  {
  }
}
