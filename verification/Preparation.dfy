/** From a confirmed order to a ready one: what the farmer has to have ticked, in however many requests. */
module Preparation {
  import opened Rows
  import Sourcing
  import SourcingProofs
  import opened Orders

  // The items one request ticks after another, from the list they start with.
  function TickedAll(list: Checklist, ticks: seq<Ticks>): Checklist {
    if ticks == [] then list else Ticked(TickedAll(list, ticks[..|ticks| - 1]), ticks[|ticks| - 1])
  }

  /** What the requests say of one item comes down to yes: the last of them to name it ticks it. */
  predicate Yes(ticks: seq<Ticks>, item: Ticks -> Option<bool>) {
    exists i | 0 <= i < |ticks| ::
      item(ticks[i]) == Some(true) && forall j | i < j < |ticks| :: item(ticks[j]).None?
  }

  function Harvested(): Ticks -> Option<bool> { (t: Ticks) => t.harvested }

  function Sorted(): Ticks -> Option<bool> { (t: Ticks) => t.sorted }

  function Packaged(): Ticks -> Option<bool> { (t: Ticks) => t.packaged }

  function Pickup(): Ticks -> Option<bool> { (t: Ticks) => t.readyForPickup }

  // One more request settles an item it names, and leaves what was said of the others.
  lemma YesOneMore(ticks: seq<Ticks>, last: Ticks, item: Ticks -> Option<bool>)
    ensures Yes(ticks + [last], item) <==> item(last) == Some(true) || (item(last).None? && Yes(ticks, item))
  {
    var all := ticks + [last];
    assert all[|ticks|] == last && forall i | 0 <= i < |ticks| :: all[i] == ticks[i];
    if item(last).None? && Yes(ticks, item) {
      var i :| 0 <= i < |ticks| && item(ticks[i]) == Some(true) && forall j | i < j < |ticks| :: item(ticks[j]).None?;
      assert item(all[i]) == Some(true) && forall j | i < j < |all| :: item(all[j]).None?;
    }
  }

  // A list that starts unticked ends complete exactly when every item comes down to yes.
  lemma {:induction false} TickedAllIs(ticks: seq<Ticks>)
    ensures var list := TickedAll(Checklist(false, false, false, false), ticks);
            && (list.harvested <==> Yes(ticks, Harvested()))
            && (list.sorted <==> Yes(ticks, Sorted()))
            && (list.packaged <==> Yes(ticks, Packaged()))
            && (list.readyForPickup <==> Yes(ticks, Pickup()))
  {
    if ticks != [] {
      hide Yes;
      var before, last := ticks[..|ticks| - 1], ticks[|ticks| - 1];
      assert ticks == before + [last];
      TickedAllIs(before);
      YesOneMore(before, last, Harvested());
      YesOneMore(before, last, Sorted());
      YesOneMore(before, last, Packaged());
      YesOneMore(before, last, Pickup());
    } else {
      assert !Yes(ticks, Harvested());
    }
  }

  // The farmer's requests one after another; one that is refused changes nothing.
  function AfterTicks(s: State, session: Id, ticks: seq<Ticks>): State {
    if ticks == [] then s
    else
      var before := AfterTicks(s, session, ticks[..|ticks| - 1]);
      match Tick(before, session, ticks[|ticks| - 1])
      case Ok(t) => t
      case Refused(_) => before
  }

  predicate BeingPrepared(s: State, session: Id) {
    && session in s.orderReads && s.orderReads[session].row.status.Preparing?
    && s.orderReads[session].id in s.orders && s.orders[s.orderReads[session].id].status.Preparing?
    && s.orders[s.orderReads[session].id].checklist.Some?
  }

  // While the order is being prepared, none of the requests is refused, and only its list changes.
  lemma {:induction false} AfterTicksIs(s: State, session: Id, ticks: seq<Ticks>)
    requires BeingPrepared(s, session)
    ensures var o := s.orderReads[session].id;
            var list := TickedAll(s.orders[o].checklist.value, ticks);
            AfterTicks(s, session, ticks) == s.(orders := s.orders[o := s.orders[o].(checklist := Some(list))])
  {
    var o := s.orderReads[session].id;
    if ticks == [] {
      assert s.orders == s.orders[o := s.orders[o].(checklist := Some(s.orders[o].checklist.value))];
    } else {
      AfterTicksIs(s, session, ticks[..|ticks| - 1]);
    }
  }

  lemma Prepared(s: State, session: Id)
    requires Prepare(s, session).Ok?
    ensures var o, t := s.orderReads[session].id, Prepare(s, session).value;
            && o in t.orders && t.orders[o].status.Preparing?
            && t.orders[o].checklist == Some(Checklist(false, false, false, false))
  {
    hide Sourcing.Sync;
    var o := s.orderReads[session].id;
    var row := s.orders[o].(status := Preparing, checklist := Some(Checklist(false, false, false, false)));
    SourcingProofs.SyncTouchesStatusOnly(s.(orders := s.orders[o := row]), Sourcing.RequestOf(s, row));
  }

  // What a farmer who reads the order, sends `ticks` and reads it again sees.
  function Reread(s: State, session: Id, o: Id, ticks: seq<Ticks>): State
    requires o in s.orders
  {
    var t := AfterTicks(ReadOrder(s, session, o).value, session, ticks);
    match ReadOrder(t, session, o)
    case Ok(u) => u
    case Refused(_) => t
  }

  /**
   * Once prepared, an order can be marked ready after some requests exactly when the last of them to name
   * each of the four items ticked it; preparing alone ticks nothing.
   */
  lemma ReadyNeedsEveryTick(s: State, session: Id, ticks: seq<Ticks>)
    requires Prepare(s, session).Ok?
    ensures s.orderReads[session].id in Prepare(s, session).value.orders
    ensures MarkReady(Reread(Prepare(s, session).value, session, s.orderReads[session].id, ticks), session, session).Ok?
            <==> Yes(ticks, Harvested()) && Yes(ticks, Sorted()) && Yes(ticks, Packaged()) && Yes(ticks, Pickup())
  {
    hide Moved, Yes, TickedAll, AfterTicks;
    var o := s.orderReads[session].id;
    Prepared(s, session);
    var read := ReadOrder(Prepare(s, session).value, session, o).value;
    AfterTicksIs(read, session, ticks);
    TickedAllIs(ticks);
  }
}
