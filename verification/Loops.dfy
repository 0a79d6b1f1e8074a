/** What the services' loops have done part way through: sums and releases over the rows taken so far. */
module Loops {
  import opened Rows
  import opened Sums
  import opened Stock
  import opened Checkouts
  import Sourcing
  import Payouts
  import opened Invariants
  import SourcingProofs
  import PayoutProofs

  function Part<K, V>(rows: map<K, V>, done: set<K>): map<K, V> {
    map k | k in rows && k in done :: rows[k]
  }

  lemma PartGrows<K, V>(rows: map<K, V>, done: set<K>, k: K)
    requires k in rows && k !in done
    ensures Part(rows, done + {k}) == Part(rows, done)[k := rows[k]] && k !in Part(rows, done)
  {
  }

  lemma SumPartGrows<K, V>(rows: map<K, V>, weight: V -> int, done: set<K>, k: K)
    requires k in rows && k !in done
    ensures Sum(Part(rows, done + {k}), weight) == Sum(Part(rows, done), weight) + weight(rows[k])
  {
    PartGrows(rows, done, k);
    SumInsert(Part(rows, done), weight, k, rows[k]);
  }

  // Rows left out weigh nothing, so the part taken is the whole sum.
  lemma {:induction false} SumOfPart<K, V>(rows: map<K, V>, weight: V -> int, done: set<K>)
    requires forall k | k in rows && k !in done :: weight(rows[k]) == 0
    ensures Sum(Part(rows, done), weight) == Sum(rows, weight)
    decreases rows.Keys
  {
    if rows == map[] {
      assert Part(rows, done) == map[];
    } else {
      var k :| k in rows;
      assert (rows - {k}).Keys < rows.Keys;
      SumTake(rows, weight, k);
      SumOfPart(rows - {k}, weight, done);
      if k in done {
        SumTake(Part(rows, done), weight, k);
        assert Part(rows, done) - {k} == Part(rows - {k}, done);
      } else {
        assert Part(rows, done) == Part(rows - {k}, done);
      }
    }
  }

  // ----- Reserving lines -----

  lemma {:induction false} NoneStays(listings: map<Id, Listing>, verified: set<Id>, lines: seq<Line>, k: nat)
    requires k <= |lines| && ReserveAll(listings, verified, lines[..k]).None?
    ensures ReserveAll(listings, verified, lines).None?
  {
    if k == |lines| {
      assert lines[..k] == lines;
    } else {
      assert lines[..|lines| - 1][..k] == lines[..k];
      NoneStays(listings, verified, lines[..|lines| - 1], k);
    }
  }

  // ----- Releasing a checkout's orders one at a time -----

  function UnpaidOf(orders: map<Id, Order>, c: Id): set<Id> {
    set o | o in orders && Unpaid(orders[o], c)
  }

  lemma {:induction false} HasLeast(orders: map<Id, Order>, todo: set<Id>)
    requires todo != {} && todo <= orders.Keys
    ensures exists o :: o in todo && forall p | p in todo :: orders[o].listing <= orders[p].listing
    decreases todo
  {
    var o: Id :| o in todo;
    var rest := todo - {o};
    assert todo == rest + {o};
    if rest != {} {
      assert rest < todo;
      HasLeast(orders, rest);
      var least: Id :| least in rest && forall p | p in rest :: orders[least].listing <= orders[p].listing;
      var best: Id := if orders[o].listing <= orders[least].listing then o else least;
      assert best in todo && forall p | p in todo :: orders[best].listing <= orders[p].listing;
    }
  }

  lemma ReturnedNothing(listings: map<Id, Listing>, orders: map<Id, Order>, c: Id)
    ensures Returned(listings, Part(orders, {}), c) == listings
  {
    assert Part(orders, {}) == map[];
  }

  lemma HoldsOneMore(orders: map<Id, Order>, o: Id, row: Order, l: Id, c: Id)
    requires o !in orders && Unpaid(row, c)
    ensures HoldsUnpaid(orders[o := row], l, c) <==> HoldsUnpaid(orders, l, c) || row.listing == l
  {
    var after := orders[o := row];
    if HoldsUnpaid(orders, l, c) {
      var p :| p in orders && orders[p].listing == l && Unpaid(orders[p], c);
      assert after[p] == orders[p];
    }
    if row.listing == l {
      assert after[o].listing == l && Unpaid(after[o], c);
    }
  }

  // Giving a listing back one more order's stock.
  lemma RowOneMore(row: Listing, before: int, quantity: int)
    ensures Restatused(Restatused(row.(floating := row.floating + before)).(floating := row.floating + before + quantity))
            == Restatused(row.(floating := row.floating + before + quantity))
  {
  }

  lemma ReturnedOneMoreRow(listings: map<Id, Listing>, orders: map<Id, Order>, o: Id, row: Order, c: Id, l: Id)
    requires o !in orders && Unpaid(row, c) && l in listings
    ensures Returned(listings, orders[o := row], c)[l] == ReleaseStock(Returned(listings, orders, c), row)[l]
  {
    SumInsert(orders, ReleasedOn(l, c), o, row);
    HoldsOneMore(orders, o, row, l, c);
    if row.listing == l {
      RowOneMore(listings[l], Sum(orders, ReleasedOn(l, c)), row.quantity);
      if !HoldsUnpaid(orders, l, c) {
        SumZero(orders, ReleasedOn(l, c));
      }
    }
  }

  lemma ReturnedOneMore(listings: map<Id, Listing>, orders: map<Id, Order>, done: set<Id>, o: Id, c: Id)
    requires o in orders && o !in done && Unpaid(orders[o], c)
    ensures Returned(listings, Part(orders, done + {o}), c)
            == ReleaseStock(Returned(listings, Part(orders, done), c), orders[o])
  {
    hide Returned, ReleaseStock, Unpaid;
    PartGrows(orders, done, o);
    var before := Part(orders, done);
    ReturnedKeys(listings, before, orders[o], c);
    ReturnedKeys(listings, before[o := orders[o]], orders[o], c);
    forall l | l in listings
      ensures Returned(listings, before[o := orders[o]], c)[l] == ReleaseStock(Returned(listings, before, c), orders[o])[l]
    {
      ReturnedOneMoreRow(listings, before, o, orders[o], c, l);
    }
  }

  lemma ReturnedKeys(listings: map<Id, Listing>, orders: map<Id, Order>, row: Order, c: Id)
    ensures Returned(listings, orders, c).Keys == listings.Keys
    ensures ReleaseStock(Returned(listings, orders, c), row).Keys == listings.Keys
  {
  }

  lemma ReturnedAll(listings: map<Id, Listing>, orders: map<Id, Order>, c: Id)
    ensures Returned(listings, Part(orders, UnpaidOf(orders, c)), c) == Returned(listings, orders, c)
  {
    var part := Part(orders, UnpaidOf(orders, c));
    forall l | l in listings
      ensures Sum(part, ReleasedOn(l, c)) == Sum(orders, ReleasedOn(l, c))
      ensures HoldsUnpaid(part, l, c) <==> HoldsUnpaid(orders, l, c)
    {
      SumOfPart(orders, ReleasedOn(l, c), UnpaidOf(orders, c));
      if HoldsUnpaid(orders, l, c) {
        var o :| o in orders && orders[o].listing == l && Unpaid(orders[o], c);
        assert part[o] == orders[o];
      }
    }
  }

  lemma SumOfNone<K, V>(rows: map<K, V>, weight: V -> int)
    ensures Sum(Part(rows, {}), weight) == 0
  {
    assert Part(rows, {}) == map[];
  }

  // ----- Sweeping overdue checkouts -----

  ghost function Swept(s: State, overdue: seq<Id>, now: int): State {
    if overdue == [] then s
    else
      var before := Swept(s, overdue[..|overdue| - 1], now);
      match Expire(before, overdue[|overdue| - 1], now)
      case Ok(t) => t
      case Refused(_) => before
  }

  ghost function StillDue(s: State, overdue: seq<Id>, now: int): nat {
    if overdue == [] then 0
    else
      StillDue(s, overdue[..|overdue| - 1], now) +
      if Expire(Swept(s, overdue[..|overdue| - 1], now), overdue[|overdue| - 1], now).Ok? then 1 else 0
  }

  predicate DueAt(s: State, c: Id, now: int) {
    c in s.checkouts && s.checkouts[c].status.AwaitingPayment? && s.checkouts[c].expiresAt < now
  }

  lemma ExpireTouchesOne(s: State, c: Id, now: int)
    requires DueAt(s, c, now)
    ensures Expire(s, c, now).Ok?
    ensures Expire(s, c, now).value.checkouts == s.checkouts[c := s.checkouts[c].(status := Expired)]
  {
    hide Sourcing.Sync, Returned, WithOrders, WithoutPending;
    SourcingProofs.SyncTouchesStatusOnly(Release(s, c, Expired), s.checkouts[c].request);
  }

  /**
   * A sweep expires exactly the listed checkouts that were overdue, leaves every other checkout alone,
   * and nothing it was given is overdue afterwards.
   */
  lemma {:induction false} SweepExpires(s: State, overdue: seq<Id>, now: int)
    ensures var t := Swept(s, overdue, now);
            && t.checkouts.Keys == s.checkouts.Keys
            && forall c | c in s.checkouts ::
                 t.checkouts[c] == if c in overdue && DueAt(s, c, now) then s.checkouts[c].(status := Expired)
                                   else s.checkouts[c]
  {
    if overdue != [] {
      var n := |overdue| - 1;
      var before := Swept(s, overdue[..n], now);
      SweepExpires(s, overdue[..n], now);
      assert overdue == overdue[..n] + [overdue[n]];
      if DueAt(before, overdue[n], now) {
        ExpireTouchesOne(before, overdue[n], now);
      }
    }
  }

  ghost function DueAmong(s: State, overdue: seq<Id>, now: int): set<Id> {
    set c | c in overdue && DueAt(s, c, now)
  }

  lemma DueAmongOneMore(s: State, overdue: seq<Id>, c: Id, now: int)
    requires c !in overdue
    ensures |DueAmong(s, overdue + [c], now)| == |DueAmong(s, overdue, now)| + if DueAt(s, c, now) then 1 else 0
  {
    var before := DueAmong(s, overdue, now);
    assert DueAmong(s, overdue + [c], now) == if DueAt(s, c, now) then before + {c} else before;
  }

  /** The count returned is how many of the scanned checkouts were overdue. */
  lemma {:induction false} CountIsDue(s: State, overdue: seq<Id>, now: int)
    requires Distinct(overdue)
    ensures StillDue(s, overdue, now) == |DueAmong(s, overdue, now)|
  {
    hide Release, Sourcing.Sync;
    if overdue != [] {
      var n := |overdue| - 1;
      CountIsDue(s, overdue[..n], now);
      SweepExpires(s, overdue[..n], now);
      assert overdue == overdue[..n] + [overdue[n]] && overdue[n] !in overdue[..n];
      DueAmongOneMore(s, overdue[..n], overdue[n], now);
    }
  }

  // ----- Approving a batch of payouts -----

  predicate Distinct(ids: seq<Id>) {
    forall i, j | 0 <= i < j < |ids| :: ids[i] != ids[j]
  }

  // The farmers of a batch to whom nothing is due.
  function WithoutDue(s: State, config: Config, farmers: seq<Id>, now: int): seq<Id> {
    if farmers == [] then []
    else
      var last := farmers[|farmers| - 1];
      WithoutDue(s, config, farmers[..|farmers| - 1], now) +
      if Payouts.Due(s, config, last, now) == map[] then [last] else []
  }

  // Paying one farmer uses up nothing that is due to another.
  lemma DueOfOther(s: State, config: Config, paid: Id, other: Id, now: int)
    requires paid != other && (forall i | i in s.items :: i.0 < s.next)
    ensures Payouts.Due(Payouts.ApproveOne(s, config, paid, now), config, other, now)
            == Payouts.Due(s, config, other, now)
  {
    hide Payouts.ApproveOne, Payouts.Eligible;
    var t := Payouts.ApproveOne(s, config, paid, now);
    OrdersSame(s, config, paid, now);
    forall o | o in s.orders && s.orders[o].farmer == other
      ensures Payouts.Eligible(t, config, o, now) <==> Payouts.Eligible(s, config, o, now)
    {
      EligibleOfOther(s, config, paid, now, o);
    }
  }

  lemma OrdersSame(s: State, config: Config, paid: Id, now: int)
    ensures Payouts.ApproveOne(s, config, paid, now).orders == s.orders
  {
    hide Payouts.Due;
  }

  lemma EligibleOfOther(s: State, config: Config, paid: Id, now: int, o: Id)
    requires o in s.orders && s.orders[o].farmer != paid && (forall i | i in s.items :: i.0 < s.next)
    ensures Payouts.Eligible(Payouts.ApproveOne(s, config, paid, now), config, o, now)
            <==> Payouts.Eligible(s, config, o, now)
  {
    hide Payouts.WholeRefund, Payouts.LiveItem, Payouts.Due, Payouts.NewItems, Payouts.Total;
    var t := Payouts.ApproveOne(s, config, paid, now);
    if Payouts.Due(s, config, paid, now) != map[] {
      SameItems(s, t, config, paid, now, o);
    }
  }

  lemma SameItems(s: State, t: State, config: Config, paid: Id, now: int, o: Id)
    requires t == Payouts.ApproveOne(s, config, paid, now) && Payouts.Due(s, config, paid, now) != map[]
    requires o in s.orders && s.orders[o].farmer != paid && (forall i | i in s.items :: i.0 < s.next)
    ensures Payouts.LiveItem(t.items, o) <==> Payouts.LiveItem(s.items, o)
  {
    hide Payouts.Eligible, Payouts.Total;
    PayoutProofs.NewItemsAre(Payouts.Due(s, config, paid, now), s.next);
    if i :| i in s.items && s.items[i].order == o && s.items[i].Live() {
      assert t.items[i] == s.items[i];
    }
    if i :| i in t.items && t.items[i].order == o && t.items[i].Live() {
      assert i in s.items;
    }
  }

  /** What is due to a farmer does not depend on who else is approved in the batch. */
  lemma {:induction false} DueUntouched(s: State, config: Config, farmers: seq<Id>, now: int, other: Id)
    requires Inv(s) && other !in farmers
    ensures Payouts.Due(Payouts.Approve(s, config, farmers, now), config, other, now)
            == Payouts.Due(s, config, other, now)
  {
    hide Inv, Payouts.ApproveOne, Payouts.Due;
    if farmers != [] {
      var n := |farmers| - 1;
      DueUntouched(s, config, farmers[..n], now, other);
      var before := Payouts.Approve(s, config, farmers[..n], now);
      PayoutProofs.ApproveKeeps(s, config, farmers[..n], now);
      PayoutProofs.PayoutTables(before);
      PayoutProofs.ItemKeys(before);
      DueOfOther(before, config, farmers[n], other, now);
    }
  }

  // ----- Selecting listings for a request -----

  // Lines after one that fails do not change why the selection fails.
  lemma {:induction false} FailsEarly(s: State, lines: seq<Line>, matching: set<Id>, k: nat)
    requires k <= |lines| && Checked(s, lines[..k], matching).Refused?
    ensures Checked(s, lines, matching) == Checked(s, lines[..k], matching)
  {
    if k < |lines| {
      var n := |lines| - 1;
      assert lines[..n][..k] == lines[..k];
      FailsEarly(s, lines[..n], matching, k);
    } else {
      assert lines[..k] == lines;
    }
  }

  // ----- Closing a request -----

  // At most one checkout of a request is waiting to be paid, so any one found is the one.
  lemma OneAwaiting(s: State, r: Id)
    requires Inv(s)
    ensures forall c, d | c in s.checkouts && d in s.checkouts && AwaitingFor(s.checkouts[c], r) &&
                          AwaitingFor(s.checkouts[d], r) :: c == d
  {
    hide StockOk, CheckoutsOk, HandoversOk, ReadsOk, PaymentsOk, RefundsOk, PayoutsOk, Excluded, SyncedBut, CartsOk;
  }

  lemma ClosesOver(s: State, r: Id, c: Id)
    requires Inv(s) && CloseRequest(s, r).Ok? && c in s.checkouts && AwaitingFor(s.checkouts[c], r)
    ensures var closed := s.(requests := s.requests[r := s.requests[r].(closed := true)]);
            CloseRequest(s, r) == Ok(Sourcing.Sync(Release(closed, c, CheckoutStatus.Cancelled), Some(r)))
  {
    hide Inv, Sourcing.Sync, Release;
    OneAwaiting(s, r);
    assert exists d | d in s.checkouts :: AwaitingFor(s.checkouts[d], r);
  }
}
