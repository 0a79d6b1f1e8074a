/**
 * Refunds and payout approvals as the processes they are: each takes advisory locks one at a time,
 * reads what is committed at that moment, and commits later, while any number of others and every
 * other transaction of the marketplace run in between. The locks are enough: no interleaving takes
 * the ledger out of order.
 */
module Interleaving {
  import opened Rows
  import opened Sums
  import opened Refunds
  import opened Payouts
  import opened Invariants
  import opened Evolution
  import opened Bystanders
  import opened Ids
  import Stock
  import Runs
  import RefundProofs
  import PayoutProofs
  import Solvency

  type Pid = nat

  datatype Lock = OfPayment(payment: Id) | OfFarmer(farmer: Id)

  /** A farmer and the orders an approval has found due, not yet committed. */
  datatype Entry = Entry(farmer: Id, due: map<Id, Order>)

  /** Where a process stands; what it holds is recorded in the lock table. */
  datatype Process =
    | RefundCalled(payment: Id, order: Option<Id>)
    | PaymentLocked(payment: Id, order: Option<Id>)
    | TakingFarmers(payment: Id, remaining: int, todo: seq<Id>)
    | RefundChecked(payment: Id, order: Option<Id>, amount: nat)
    | Approving(todo: seq<Id>, buffer: seq<Entry>)
    | FarmerLocked(farmer: Id, todo: seq<Id>, buffer: seq<Entry>)
    | Ended

  datatype System = System(db: State, processes: map<Pid, Process>, locks: map<Lock, Pid>)

  predicate Holds(locks: map<Lock, Pid>, lock: Lock, pid: Pid) {
    lock in locks && locks[lock] == pid
  }

  predicate Free(locks: map<Lock, Pid>, lock: Lock, pid: Pid) {
    lock !in locks || locks[lock] == pid
  }

  function ReleaseAll(locks: map<Lock, Pid>, pid: Pid): map<Lock, Pid> {
    map lock | lock in locks && locks[lock] != pid :: locks[lock]
  }

  // The farmers a whole refund has to lock out, in the order approvals lock them.
  function FarmersOf(orders: map<Id, Order>, c: Id): set<Id> {
    set o | o in orders && orders[o].checkout == Some(c) :: orders[o].farmer
  }

  function End(sys: System, pid: Pid): System {
    sys.(processes := sys.processes[pid := Ended], locks := ReleaseAll(sys.locks, pid))
  }

  function GoOn(sys: System, pid: Pid, now: Process): System {
    sys.(processes := sys.processes[pid := now])
  }

  function Take(sys: System, pid: Pid, lock: Lock, now: Process): System {
    sys.(processes := sys.processes[pid := now], locks := sys.locks[lock := pid])
  }

  predicate Buffered(buffer: seq<Entry>, o: Id) {
    exists k | 0 <= k < |buffer| :: o in buffer[k].due
  }

  ghost function PayAll(s: State, buffer: seq<Entry>): State {
    if buffer == [] then s
    else PaidOut(PayAll(s, buffer[..|buffer| - 1]), buffer[|buffer| - 1].farmer, buffer[|buffer| - 1].due)
  }

  // Under the payment's lock: its status, its live refunds and the order decide what may be refunded.
  ghost function AfterRead(sys: System, pid: Pid, p: Id, order: Option<Id>): System {
    if p !in sys.db.payments || sys.db.payments[p].checkout !in sys.db.checkouts then End(sys, pid)
    else
      var payment := sys.db.payments[p];
      var remaining := Remaining(sys.db.payments, sys.db.refunds, p);
      if !payment.status.Succeeded? && (order.Some? || !payment.status.Orphaned?) then End(sys, pid)
      else if order.Some? then
        match OrderAmount(sys.db, p, order.value)
        case Refused(_) => End(sys, pid)
        case Ok(amount) =>
          if remaining <= 0 || amount > remaining then End(sys, pid) else GoOn(sys, pid, RefundChecked(p, order, amount))
      else if payment.status.Succeeded? then
        GoOn(sys, pid, TakingFarmers(p, remaining, Ascending(FarmersOf(sys.db.orders, payment.checkout))))
      else if remaining <= 0 then End(sys, pid)
      else GoOn(sys, pid, RefundChecked(p, None, remaining))
  }

  // One step of one process; a process whose next lock is taken waits.
  ghost function Step(config: Config, sys: System, pid: Pid, now: int): System {
    if pid !in sys.processes then sys
    else
      match sys.processes[pid]
      case RefundCalled(p, order) =>
        if Free(sys.locks, OfPayment(p), pid) then Take(sys, pid, OfPayment(p), PaymentLocked(p, order)) else sys
      case PaymentLocked(p, order) => AfterRead(sys, pid, p, order)
      case TakingFarmers(p, remaining, todo) =>
        if todo != [] then
          if Free(sys.locks, OfFarmer(todo[0]), pid) then
            Take(sys, pid, OfFarmer(todo[0]), TakingFarmers(p, remaining, todo[1..]))
          else sys
        else if p !in sys.db.payments || LiveItemOn(sys.db.items, sys.db.orders, sys.db.payments[p].checkout)
                || remaining <= 0 then End(sys, pid)
        else GoOn(sys, pid, RefundChecked(p, None, remaining))
      case RefundChecked(p, order, amount) =>
        End(sys.(db := RefundProofs.Refunded(sys.db, RefundProofs.Asked(p, order, amount))), pid)
      case Approving(todo, buffer) =>
        if todo == [] then End(sys.(db := PayAll(sys.db, buffer)), pid)
        else if Free(sys.locks, OfFarmer(todo[0]), pid) then
          Take(sys, pid, OfFarmer(todo[0]), FarmerLocked(todo[0], todo[1..], buffer))
        else sys
      case FarmerLocked(farmer, todo, buffer) =>
        var due := Due(sys.db, config, farmer, now);
        var unpaid := map o | o in due && !Buffered(buffer, o) :: due[o];
        GoOn(sys, pid, Approving(todo, if unpaid == map[] then buffer else buffer + [Entry(farmer, unpaid)]))
      case Ended => sys
  }

  /** A process takes a step, or some other transaction runs from start to end. */
  datatype Action = Go(pid: Pid, now: int) | Other(event: Runs.Event)

  ghost function Next(config: Config, sys: System, action: Action): System {
    match action
    case Go(pid, now) => Step(config, sys, pid, now)
    case Other(event) => if Contends(event) then sys else sys.(db := Runs.After(config, sys.db, event))
  }

  ghost function Schedule(config: Config, sys: System, actions: seq<Action>): System {
    if actions == [] then sys
    else Next(config, Schedule(config, sys, actions[..|actions| - 1]), actions[|actions| - 1])
  }

  // ----- What each process may count on -----

  // The payment is settled and its lock keeps its live refunds from growing.
  ghost predicate LocksFarmers(db: State, locks: map<Lock, Pid>, pid: Pid, p: Id) {
    p in db.payments && forall f | f in FarmersOf(db.orders, db.payments[p].checkout) :: Holds(locks, OfFarmer(f), pid)
  }

  ghost predicate BufferOk(db: State, locks: map<Lock, Pid>, pid: Pid, buffer: seq<Entry>) {
    && (forall k | 0 <= k < |buffer| ::
          Holds(locks, OfFarmer(buffer[k].farmer), pid) && PayoutProofs.MayPay(db, buffer[k].farmer, buffer[k].due))
    && (forall j, k | 0 <= j < k < |buffer| :: buffer[j].due.Keys !! buffer[k].due.Keys)
  }

  ghost predicate ProcessOk(db: State, locks: map<Lock, Pid>, pid: Pid, process: Process) {
    match process
    case RefundCalled(_, _) => true
    case PaymentLocked(p, _) => Holds(locks, OfPayment(p), pid)
    case TakingFarmers(p, remaining, todo) =>
      && Holds(locks, OfPayment(p), pid)
      && p in db.payments && db.payments[p].status.Succeeded? && db.payments[p].checkout in db.checkouts
      && remaining <= Remaining(db.payments, db.refunds, p)
      && (forall f | f in FarmersOf(db.orders, db.payments[p].checkout) :: f in todo || Holds(locks, OfFarmer(f), pid))
    case RefundChecked(p, order, amount) =>
      && Holds(locks, OfPayment(p), pid)
      && RefundProofs.MayRefund(db, p, order, amount)
      && (order.None? && db.payments[p].status.Succeeded? ==> LocksFarmers(db, locks, pid, p))
    case Approving(_, buffer) => BufferOk(db, locks, pid, buffer)
    case FarmerLocked(farmer, _, buffer) => Holds(locks, OfFarmer(farmer), pid) && BufferOk(db, locks, pid, buffer)
    case Ended => true
  }

  ghost predicate SystemOk(sys: System) {
    Inv(sys.db) && forall pid | pid in sys.processes :: ProcessOk(sys.db, sys.locks, pid, sys.processes[pid])
  }

  // ----- Lock tables -----

  // Every lock `pid` holds before, it holds after.
  ghost predicate Keeps(before: map<Lock, Pid>, after: map<Lock, Pid>, pid: Pid) {
    forall lock | Holds(before, lock, pid) :: Holds(after, lock, pid)
  }

  lemma LocksKept(db: State, before: map<Lock, Pid>, after: map<Lock, Pid>, pid: Pid, process: Process)
    requires ProcessOk(db, before, pid, process) && Keeps(before, after, pid)
    ensures ProcessOk(db, after, pid, process)
  {
    hide PayoutProofs.MayPay, RefundProofs.MayRefund;
  }

  // ----- Another transaction commits -----

  lemma FarmersKept(s: State, t: State, c: Id)
    requires Inv(s) && Evolves(s, t) && c in s.checkouts
    ensures FarmersOf(t.orders, c) <= FarmersOf(s.orders, c)
  {
    hide Stock.StockOk, CheckoutsOk, HandoversOk, ReadsOk, PaymentsOk, RefundsOk, PayoutsOk, Excluded, RequestRefs;
    hide SyncedBut, CartsOk, CheckoutsEvolve, PaymentsEvolve, RefundsEvolve, PayoutsEvolve, ItemsEvolve, RequestsEvolve;
  }

  // A refund that appears is on a payment orphaned just now.
  lemma NewRefundElsewhere(s: State, t: State, p: Id, r: Id)
    requires RefundsOk(s.checkouts, s.orders, s.payments, s.refunds)
    requires RefundsOk(t.checkouts, t.orders, t.payments, t.refunds)
    requires RefundsEvolve(s.refunds, t.refunds) && PaymentsEvolve(s.payments, t.payments)
    requires p in s.payments && Settled(s.payments[p].status)
    requires r in t.refunds && r !in s.refunds && t.refunds[r].automatic
    ensures t.refunds[r].payment != p
  {
    hide OneLiveRefund, BalancesOk;
    assert RefundFits(t.checkouts, t.orders, t.payments, t.refunds[r]);
    if s.payments[p].status.Orphaned? {
      assert HasAutomatic(s.refunds, p);
      var q :| q in s.refunds && s.refunds[q].payment == p && s.refunds[q].automatic;
      assert t.refunds[q].payment == p && t.refunds[q].automatic;
    }
  }

  lemma RefundTables(s: State, t: State)
    requires Inv(s) && Inv(t) && Evolves(s, t)
    ensures RefundsOk(s.checkouts, s.orders, s.payments, s.refunds)
    ensures RefundsOk(t.checkouts, t.orders, t.payments, t.refunds)
    ensures RefundsEvolve(s.refunds, t.refunds) && PaymentsEvolve(s.payments, t.payments)
    ensures CheckoutsEvolve(s.checkouts, t.checkouts) && OrdersEvolve(s.orders, t.orders, s.next)
    ensures ItemsEvolve(s.items, t.items)
    ensures PayoutsOk(s.checkouts, s.orders, s.payouts, s.items)
  {
    hide Inv, OrdersEvolve, CheckoutsEvolve, PaymentsEvolve, RefundsEvolve, PayoutsEvolve, ItemsEvolve, RequestsEvolve;
    RefundProofs.RefundTables(s);
    RefundProofs.RefundTables(t);
    PayoutProofs.PayoutTables(s);
  }

  lemma RemainingGrows(s: State, t: State, p: Id)
    requires Inv(s) && Inv(t) && Evolves(s, t) && Bystands(s, t) && p in s.payments && Settled(s.payments[p].status)
    ensures p in t.payments && t.payments[p] == s.payments[p]
    ensures Remaining(s.payments, s.refunds, p) <= Remaining(t.payments, t.refunds, p)
  {
    hide Inv, Evolves, RefundsOk, PayoutsOk, OrdersEvolve, CheckoutsEvolve, ItemsEvolve;
    RefundTables(s, t);
    forall r | r in t.refunds && LiveOn(p)(t.refunds[r]) > 0
      ensures r in s.refunds && LiveOn(p)(t.refunds[r]) <= LiveOn(p)(s.refunds[r])
    {
      if r !in s.refunds {
        NewRefundElsewhere(s, t, p, r);
      }
    }
    SumShrinks(s.refunds, t.refunds, LiveOn(p));
  }

  lemma NotRefundedSince(s: State, t: State, p: Id, o: Id)
    requires Inv(s) && Inv(t) && Evolves(s, t) && Bystands(s, t) && p in s.payments && Settled(s.payments[p].status)
    requires !RefundedOn(s.refunds, p, o)
    ensures !RefundedOn(t.refunds, p, o)
  {
    hide Inv, Evolves, RefundsOk, PayoutsOk, OrdersEvolve, CheckoutsEvolve, ItemsEvolve;
    RefundTables(s, t);
    if r :| r in t.refunds && t.refunds[r].payment == p && t.refunds[r].Live() && t.refunds[r].order == Some(o) {
      if r !in s.refunds {
        NewRefundElsewhere(s, t, p, r);
      }
    }
  }

  lemma NoItemSince(s: State, t: State, c: Id)
    requires Inv(s) && Inv(t) && Evolves(s, t) && Bystands(s, t) && !LiveItemOn(s.items, s.orders, c)
    ensures !LiveItemOn(t.items, t.orders, c)
  {
    hide Inv, Evolves, RefundsOk, OneLiveItem, PaymentsEvolve, CheckoutsEvolve, RefundsEvolve;
    RefundTables(s, t);
    forall i | i in s.items
      ensures s.items[i].order in s.orders
    {
      assert ItemFits(s.checkouts, s.orders, s.payouts, s.items[i]);
    }
  }

  lemma NoWholeSince(s: State, t: State, c: Id)
    requires Inv(s) && Inv(t) && Evolves(s, t) && Bystands(s, t) && !WholeRefund(s.payments, s.refunds, c)
    ensures !WholeRefund(t.payments, t.refunds, c)
  {
    hide Inv, Evolves, PayoutsOk, OrdersEvolve, CheckoutsEvolve, ItemsEvolve, OneLiveRefund, AutomaticsOk, BalancesOk;
    RefundTables(s, t);
    if r :| r in t.refunds && t.refunds[r].order.None? && t.refunds[r].Live() && t.refunds[r].payment in t.payments
            && t.payments[t.refunds[r].payment].checkout == c && t.payments[t.refunds[r].payment].status.Succeeded? {
      assert RefundFits(t.checkouts, t.orders, t.payments, t.refunds[r]);
      assert r in s.refunds;
      assert RefundFits(s.checkouts, s.orders, s.payments, s.refunds[r]);
      assert s.refunds[r].Live();
    }
  }

  lemma MayRefundSince(s: State, t: State, p: Id, order: Option<Id>, amount: nat)
    requires Inv(s) && Inv(t) && Evolves(s, t) && Bystands(s, t) && RefundProofs.MayRefund(s, p, order, amount)
    ensures RefundProofs.MayRefund(t, p, order, amount)
  {
    hide Inv, Evolves, RefundsOk, PayoutsOk, ItemsEvolve, LiveItemOn, RefundedOn, Remaining, Bystands;
    RefundTables(s, t);
    RemainingGrows(s, t, p);
    var c := s.payments[p].checkout;
    if order.None? && s.payments[p].status.Succeeded? {
      NoItemSince(s, t, c);
    }
    if order.Some? {
      NotRefundedSince(s, t, p, order.value);
      RefundProofs.AskedFits(s, p, order, amount);
      RefundFitKept(s.checkouts, s.orders, s.payments, t.checkouts, t.orders, t.payments, s.next,
                    RefundProofs.Asked(p, order, amount));
    }
  }

  lemma MayPaySince(s: State, t: State, farmer: Id, due: map<Id, Order>)
    requires Inv(s) && Inv(t) && Evolves(s, t) && Bystands(s, t) && PayoutProofs.MayPay(s, farmer, due)
    ensures PayoutProofs.MayPay(t, farmer, due)
  {
    hide Inv, Evolves, RefundsOk, PayoutsOk, WholeRefund, PaymentsEvolve, RefundsEvolve;
    RefundTables(s, t);
    forall o | o in due
      ensures !WholeRefund(t.payments, t.refunds, s.orders[o].checkout.value) && !LiveItem(t.items, o)
    {
      NoWholeSince(s, t, s.orders[o].checkout.value);
    }
  }

  lemma TakingSince(s: State, t: State, locks: map<Lock, Pid>, pid: Pid, process: Process)
    requires process.TakingFarmers? || process.RefundChecked?
    requires Inv(s) && Inv(t) && Evolves(s, t) && Bystands(s, t) && ProcessOk(s, locks, pid, process)
    ensures ProcessOk(t, locks, pid, process)
  {
    hide Inv, Evolves, Bystands, RefundProofs.MayRefund, Remaining, FarmersOf;
    var p := process.payment;
    MayRefundFacts(s, locks, pid, process);
    RemainingGrows(s, t, p);
    FarmersKept(s, t, s.payments[p].checkout);
    CheckoutStays(s, t, s.payments[p].checkout);
    if process.RefundChecked? {
      MayRefundSince(s, t, p, process.order, process.amount);
    }
  }

  lemma CheckoutStays(s: State, t: State, c: Id)
    requires Evolves(s, t) && c in s.checkouts
    ensures c in t.checkouts
  {
    hide OrdersEvolve, PaymentsEvolve, RefundsEvolve, PayoutsEvolve, ItemsEvolve, RequestsEvolve;
  }

  lemma MayRefundFacts(s: State, locks: map<Lock, Pid>, pid: Pid, process: Process)
    requires process.TakingFarmers? || process.RefundChecked?
    requires ProcessOk(s, locks, pid, process)
    ensures process.payment in s.payments && Settled(s.payments[process.payment].status)
    ensures s.payments[process.payment].checkout in s.checkouts
  {
    hide LiveItemOn, RefundedOn, RefundsOrder;
  }

  // Nothing another transaction commits upsets a process.
  lemma ProcessSince(s: State, t: State, locks: map<Lock, Pid>, pid: Pid, process: Process)
    requires Inv(s) && Inv(t) && Evolves(s, t) && Bystands(s, t) && ProcessOk(s, locks, pid, process)
    ensures ProcessOk(t, locks, pid, process)
  {
    hide Inv, Evolves, Bystands, PayoutProofs.MayPay, RefundProofs.MayRefund;
    if process.TakingFarmers? || process.RefundChecked? {
      TakingSince(s, t, locks, pid, process);
    } else if process.Approving? || process.FarmerLocked? {
      forall k | 0 <= k < |process.buffer| {
        MayPaySince(s, t, process.buffer[k].farmer, process.buffer[k].due);
      }
    }
  }

  lemma OtherKeeps(config: Config, sys: System, event: Runs.Event)
    requires SystemOk(sys) && !Contends(event)
    ensures SystemOk(sys.(db := Runs.After(config, sys.db, event)))
  {
    hide Inv, Evolves, Bystands, ProcessOk, Runs.After;
    var t := Runs.After(config, sys.db, event);
    Runs.StepKeeps(config, sys.db, event);
    OthersStandBy(config, sys.db, event);
    forall pid | pid in sys.processes {
      ProcessSince(sys.db, t, sys.locks, pid, sys.processes[pid]);
    }
  }

  // ----- A refund commits -----

  // Whatever else holds the refunded payment's locks is not `pid`.
  lemma RemainingBeside(s: State, row: Refund, p: Id)
    requires row.payment != p && p in s.payments && s.next !in s.refunds
    ensures Remaining(s.payments, RefundProofs.Refunded(s, row).refunds, p) == Remaining(s.payments, s.refunds, p)
  {
    SumInsert(s.refunds, LiveOn(p), s.next, row);
  }

  lemma MayRefundBeside(s: State, row: Refund, p: Id, order: Option<Id>, amount: nat)
    requires RefundProofs.MayRefund(s, p, order, amount) && row.payment != p && s.next !in s.refunds
    ensures RefundProofs.MayRefund(RefundProofs.Refunded(s, row), p, order, amount)
  {
    hide LiveItemOn, RefundsOrder, Remaining;
    RemainingBeside(s, row, p);
  }

  // The farmers a whole refund locked out have nothing buffered on its checkout.
  lemma MayPayBeside(s: State, row: Refund, farmer: Id, due: map<Id, Order>)
    requires PayoutProofs.MayPay(s, farmer, due) && s.next !in s.refunds && row.payment in s.payments
    requires row.order.None? && s.payments[row.payment].status.Succeeded? ==>
               farmer !in FarmersOf(s.orders, s.payments[row.payment].checkout)
    ensures PayoutProofs.MayPay(RefundProofs.Refunded(s, row), farmer, due)
  {
    hide LiveItem;
    var t := RefundProofs.Refunded(s, row);
    forall o | o in due
      ensures !WholeRefund(t.payments, t.refunds, s.orders[o].checkout.value)
    {
      assert s.orders[o].farmer == farmer;
      assert !WholeRefund(s.payments, s.refunds, s.orders[o].checkout.value);
      if s.orders[o].checkout.value == s.payments[row.payment].checkout {
        assert farmer in FarmersOf(s.orders, s.payments[row.payment].checkout);
      }
    }
  }

  lemma ProcessBesideRefund(s: State, locks: map<Lock, Pid>, pid: Pid, process: Process, other: Pid, row: Refund)
    requires pid != other && s.next !in s.refunds && ProcessOk(s, locks, pid, process)
    requires row.payment in s.payments && Holds(locks, OfPayment(row.payment), other)
    requires row.order.None? && s.payments[row.payment].status.Succeeded? ==>
               LocksFarmers(s, locks, other, row.payment)
    ensures ProcessOk(RefundProofs.Refunded(s, row), locks, pid, process)
  {
    hide PayoutProofs.MayPay, RefundProofs.MayRefund, FarmersOf, Remaining;
    match process
    case TakingFarmers(p, _, _) => RemainingBeside(s, row, p);
    case RefundChecked(p, order, amount) => MayRefundBeside(s, row, p, order, amount);
    case Approving(_, buffer) => BufferBesideRefund(s, locks, pid, buffer, other, row);
    case FarmerLocked(_, _, buffer) => BufferBesideRefund(s, locks, pid, buffer, other, row);
    case _ =>
  }

  lemma BufferBesideRefund(s: State, locks: map<Lock, Pid>, pid: Pid, buffer: seq<Entry>, other: Pid, row: Refund)
    requires pid != other && s.next !in s.refunds && BufferOk(s, locks, pid, buffer)
    requires row.payment in s.payments
    requires row.order.None? && s.payments[row.payment].status.Succeeded? ==>
               LocksFarmers(s, locks, other, row.payment)
    ensures BufferOk(RefundProofs.Refunded(s, row), locks, pid, buffer)
  {
    hide PayoutProofs.MayPay, FarmersOf;
    forall k | 0 <= k < |buffer|
      ensures PayoutProofs.MayPay(RefundProofs.Refunded(s, row), buffer[k].farmer, buffer[k].due)
    {
      assert Holds(locks, OfFarmer(buffer[k].farmer), pid);
      MayPayBeside(s, row, buffer[k].farmer, buffer[k].due);
    }
  }

  // ----- An approval commits -----

  lemma MayPayAfter(s: State, entry: Entry, farmer: Id, due: map<Id, Order>)
    requires PayoutProofs.MayPay(s, farmer, due) && due.Keys !! entry.due.Keys
    requires forall i | i in s.items :: i.0 < s.next
    ensures PayoutProofs.MayPay(PaidOut(s, entry.farmer, entry.due), farmer, due)
  {
    hide WholeRefund, NewItems, Total;
    PayoutProofs.NewItemsAre(entry.due, s.next);
    var t := PaidOut(s, entry.farmer, entry.due);
    forall o | o in due
      ensures !LiveItem(t.items, o)
    {
      assert !LiveItem(s.items, o);
    }
  }

  lemma DifferentFarmers(s: State, entry: Entry, farmer: Id, due: map<Id, Order>)
    requires PayoutProofs.MayPay(s, farmer, due) && PayoutProofs.MayPay(s, entry.farmer, entry.due)
    requires farmer != entry.farmer
    ensures due.Keys !! entry.due.Keys
  {
    hide WholeRefund, LiveItem;
  }

  lemma MayRefundAfter(s: State, entry: Entry, p: Id, order: Option<Id>, amount: nat)
    requires RefundProofs.MayRefund(s, p, order, amount) && PayoutProofs.MayPay(s, entry.farmer, entry.due)
    requires forall i | i in s.items :: i.0 < s.next
    requires order.None? && s.payments[p].status.Succeeded? ==>
               entry.farmer !in FarmersOf(s.orders, s.payments[p].checkout)
    ensures RefundProofs.MayRefund(PaidOut(s, entry.farmer, entry.due), p, order, amount)
  {
    hide WholeRefund, NewItems, Total, Remaining, RefundsOrder, RefundedOn;
    PayoutProofs.NewItemsAre(entry.due, s.next);
    var t := PaidOut(s, entry.farmer, entry.due);
    if order.None? && s.payments[p].status.Succeeded? {
      var c := s.payments[p].checkout;
      assert !LiveItemOn(s.items, s.orders, c);
      forall i | i in t.items && t.items[i].Live() && t.items[i].order in t.orders
        ensures t.orders[t.items[i].order].checkout != Some(c)
      {
        if i in s.items && i !in NewItems(entry.due, s.next) {
          assert s.items[i] == t.items[i];
        } else {
          assert s.orders[i.1].farmer == entry.farmer;
        }
      }
    }
  }

  lemma BufferBesidePayout(s: State, locks: map<Lock, Pid>, pid: Pid, buffer: seq<Entry>, other: Pid, entry: Entry)
    requires pid != other && BufferOk(s, locks, pid, buffer) && Holds(locks, OfFarmer(entry.farmer), other)
    requires PayoutProofs.MayPay(s, entry.farmer, entry.due) && forall i | i in s.items :: i.0 < s.next
    ensures BufferOk(PaidOut(s, entry.farmer, entry.due), locks, pid, buffer)
  {
    hide PayoutProofs.MayPay, PaidOut;
    forall k | 0 <= k < |buffer|
      ensures PayoutProofs.MayPay(PaidOut(s, entry.farmer, entry.due), buffer[k].farmer, buffer[k].due)
    {
      assert Holds(locks, OfFarmer(buffer[k].farmer), pid);
      DifferentFarmers(s, entry, buffer[k].farmer, buffer[k].due);
      MayPayAfter(s, entry, buffer[k].farmer, buffer[k].due);
    }
  }

  lemma PaidOutFrame(s: State, entry: Entry)
    ensures var t := PaidOut(s, entry.farmer, entry.due);
            t.payments == s.payments && t.refunds == s.refunds && t.orders == s.orders && t.checkouts == s.checkouts
    ensures (forall i | i in s.items :: i.0 < s.next) ==>
              forall i | i in PaidOut(s, entry.farmer, entry.due).items :: i.0 < PaidOut(s, entry.farmer, entry.due).next
  {
    hide NewItems, Total;
    PayoutProofs.NewItemsAre(entry.due, s.next);
  }

  lemma ProcessBesidePayout(s: State, locks: map<Lock, Pid>, pid: Pid, process: Process, other: Pid, entry: Entry)
    requires pid != other && ProcessOk(s, locks, pid, process) && Holds(locks, OfFarmer(entry.farmer), other)
    requires PayoutProofs.MayPay(s, entry.farmer, entry.due) && forall i | i in s.items :: i.0 < s.next
    ensures ProcessOk(PaidOut(s, entry.farmer, entry.due), locks, pid, process)
  {
    hide PayoutProofs.MayPay, RefundProofs.MayRefund, FarmersOf, Remaining, PaidOut, BufferOk;
    PaidOutFrame(s, entry);
    match process
    case RefundChecked(p, order, amount) => MayRefundAfter(s, entry, p, order, amount);
    case Approving(_, buffer) => BufferBesidePayout(s, locks, pid, buffer, other, entry);
    case FarmerLocked(_, _, buffer) => BufferBesidePayout(s, locks, pid, buffer, other, entry);
    case _ =>
  }

  lemma ItemsFresh(s: State)
    requires Inv(s)
    ensures (forall i | i in s.items :: i.0 < s.next) && s.next !in s.refunds
  {
    hide Inv;
    RefundProofs.RefundTables(s);
    PayoutProofs.PayoutTables(s);
    PayoutProofs.ItemKeys(s);
  }

  lemma PaidOutInv(s: State, entry: Entry)
    requires Inv(s) && PayoutProofs.MayPay(s, entry.farmer, entry.due)
    ensures Inv(PaidOut(s, entry.farmer, entry.due))
  {
    hide Inv, Evolves, PaidOut;
    PayoutProofs.PaidOutKeeps(s, entry.farmer, entry.due);
  }

  // The rest of a buffer may still be paid once its first entries have been.
  lemma BufferAfter(s: State, locks: map<Lock, Pid>, pid: Pid, buffer: seq<Entry>, entry: Entry)
    requires BufferOk(s, locks, pid, buffer) && (forall i | i in s.items :: i.0 < s.next)
    requires forall k | 0 <= k < |buffer| :: buffer[k].due.Keys !! entry.due.Keys
    ensures BufferOk(PaidOut(s, entry.farmer, entry.due), locks, pid, buffer)
  {
    hide PayoutProofs.MayPay, PaidOut;
    forall k | 0 <= k < |buffer| {
      MayPayAfter(s, entry, buffer[k].farmer, buffer[k].due);
    }
  }

  /** An approval's whole buffer commits at once: the ledger stays in order and nobody else is upset. */
  lemma {:induction false} PayAllKeeps(s: State, locks: map<Lock, Pid>, pid: Pid, buffer: seq<Entry>, rest: seq<Entry>,
                                       processes: map<Pid, Process>)
    requires Inv(s) && BufferOk(s, locks, pid, buffer + rest)
    requires forall q | q in processes && q != pid :: ProcessOk(s, locks, q, processes[q])
    ensures var t := PayAll(s, buffer);
            && Inv(t) && BufferOk(t, locks, pid, rest)
            && forall q | q in processes && q != pid :: ProcessOk(t, locks, q, processes[q])
  {
    hide Inv, ProcessOk, PaidOut, BufferOk;
    if buffer == [] {
      assert buffer + rest == rest;
    } else {
      var n := |buffer| - 1;
      var entry := buffer[n];
      assert buffer[..n] + ([entry] + rest) == buffer + rest;
      PayAllKeeps(s, locks, pid, buffer[..n], [entry] + rest, processes);
      var before := PayAll(s, buffer[..n]);
      FirstAndRest(before, locks, pid, entry, rest);
      ItemsFresh(before);
      PaidOutInv(before, entry);
      BufferAfter(before, locks, pid, rest, entry);
      forall q | q in processes && q != pid {
        ProcessBesidePayout(before, locks, q, processes[q], pid, entry);
      }
    }
  }

  lemma FirstAndRest(s: State, locks: map<Lock, Pid>, pid: Pid, entry: Entry, rest: seq<Entry>)
    requires BufferOk(s, locks, pid, [entry] + rest)
    ensures BufferOk(s, locks, pid, rest) && PayoutProofs.MayPay(s, entry.farmer, entry.due)
    ensures Holds(locks, OfFarmer(entry.farmer), pid)
    ensures forall k | 0 <= k < |rest| :: rest[k].due.Keys !! entry.due.Keys
  {
    hide PayoutProofs.MayPay;
    var all := [entry] + rest;
    assert all[0] == entry;
    forall k | 0 <= k < |rest|
      ensures all[k + 1] == rest[k]
    {
    }
    forall j, k | 0 <= j < k < |rest|
      ensures rest[j].due.Keys !! rest[k].due.Keys
    {
      assert rest[j] == all[j + 1] && rest[k] == all[k + 1];
    }
  }

  // ----- One process steps -----

  // The others keep what they count on when `pid` takes free locks or lets go of its own.
  lemma OthersKeep(sys: System, locks: map<Lock, Pid>, pid: Pid, now: Process)
    requires SystemOk(sys) && ProcessOk(sys.db, locks, pid, now)
    requires forall q | q != pid :: Keeps(sys.locks, locks, q)
    ensures SystemOk(sys.(processes := sys.processes[pid := now], locks := locks))
  {
    hide Inv, ProcessOk, Keeps;
    forall q | q in sys.processes && q != pid {
      LocksKept(sys.db, sys.locks, locks, q, sys.processes[q]);
    }
  }

  lemma EndKeeps(sys: System, pid: Pid)
    requires Inv(sys.db)
    requires forall q | q in sys.processes && q != pid :: ProcessOk(sys.db, sys.locks, q, sys.processes[q])
    ensures SystemOk(End(sys, pid))
  {
    hide Inv, RefundProofs.MayRefund, BufferOk;
    forall q | q in sys.processes && q != pid
      ensures ProcessOk(sys.db, ReleaseAll(sys.locks, pid), q, sys.processes[q])
    {
      ReleasedOthers(sys.locks, pid, q);
      LocksKept(sys.db, sys.locks, ReleaseAll(sys.locks, pid), q, sys.processes[q]);
    }
  }

  lemma ReleasedOthers(locks: map<Lock, Pid>, pid: Pid, q: Pid)
    requires q != pid
    ensures Keeps(locks, ReleaseAll(locks, pid), q)
  {
  }

  lemma TakeKeeps(sys: System, pid: Pid, lock: Lock, now: Process)
    requires SystemOk(sys) && Free(sys.locks, lock, pid)
    requires ProcessOk(sys.db, sys.locks[lock := pid], pid, now)
    ensures SystemOk(Take(sys, pid, lock, now))
  {
    hide Inv, ProcessOk;
    OthersKeep(sys, sys.locks[lock := pid], pid, now);
  }

  lemma GoOnKeeps(sys: System, pid: Pid, now: Process)
    requires SystemOk(sys) && ProcessOk(sys.db, sys.locks, pid, now)
    ensures SystemOk(GoOn(sys, pid, now))
  {
    hide Inv, ProcessOk;
  }

  lemma AscendingAll(ids: set<Id>)
    ensures forall i | i in ids :: i in Ascending(ids)
  {
  }

  lemma ReadKeeps(sys: System, pid: Pid, p: Id, order: Option<Id>)
    requires SystemOk(sys) && Holds(sys.locks, OfPayment(p), pid)
    ensures SystemOk(AfterRead(sys, pid, p, order))
  {
    hide Inv, RefundProofs.MayRefund, Remaining, OrderAmount, BufferOk, SystemOk, FarmersOf, End, GoOn;
    SystemFacts(sys);
    EndKeeps(sys, pid);
    if p in sys.db.payments && sys.db.payments[p].checkout in sys.db.checkouts {
      var payment := sys.db.payments[p];
      var remaining := Remaining(sys.db.payments, sys.db.refunds, p);
      if order.Some? && payment.status.Succeeded? {
        var share := OrderAmount(sys.db, p, order.value);
        if share.Ok? && remaining > 0 && share.value <= remaining {
          RefundProofs.OrderMayRefund(sys.db, p, order.value);
          GoOnKeeps(sys, pid, RefundChecked(p, order, share.value));
        }
      } else if order.None? && payment.status.Succeeded? {
        var todo := Ascending(FarmersOf(sys.db.orders, payment.checkout));
        AscendingAll(FarmersOf(sys.db.orders, payment.checkout));
        GoOnKeeps(sys, pid, TakingFarmers(p, remaining, todo));
      } else if order.None? && payment.status.Orphaned? && remaining > 0 {
        RefundProofs.WholeMayRefund(sys.db, p, remaining);
        GoOnKeeps(sys, pid, RefundChecked(p, None, remaining));
      }
    }
  }

  lemma SystemFacts(sys: System)
    requires SystemOk(sys)
    ensures Inv(sys.db) && forall pid | pid in sys.processes :: ProcessOk(sys.db, sys.locks, pid, sys.processes[pid])
  {
    hide Inv, ProcessOk;
  }

  lemma TakingKeeps(config: Config, sys: System, pid: Pid, now: int)
    requires SystemOk(sys) && pid in sys.processes && sys.processes[pid].TakingFarmers?
    ensures SystemOk(Step(config, sys, pid, now))
  {
    hide Inv, Remaining, FarmersOf, BufferOk, SystemOk, LiveItemOn, End, GoOn, Take;
    SystemFacts(sys);
    EndKeeps(sys, pid);
    var TakingFarmers(p, remaining, todo) := sys.processes[pid];
    if todo != [] {
      if Free(sys.locks, OfFarmer(todo[0]), pid) {
        FirstTaken(sys.db, sys.locks, pid, p, remaining, todo);
        TakeKeeps(sys, pid, OfFarmer(todo[0]), TakingFarmers(p, remaining, todo[1..]));
      }
    } else if !LiveItemOn(sys.db.items, sys.db.orders, sys.db.payments[p].checkout) && remaining > 0 {
      GoOnKeeps(sys, pid, RefundChecked(p, None, remaining));
    }
  }

  lemma FirstTaken(db: State, locks: map<Lock, Pid>, pid: Pid, p: Id, remaining: int, todo: seq<Id>)
    requires todo != [] && ProcessOk(db, locks, pid, TakingFarmers(p, remaining, todo))
    ensures ProcessOk(db, locks[OfFarmer(todo[0]) := pid], pid, TakingFarmers(p, remaining, todo[1..]))
  {
    hide Remaining, FarmersOf;
  }

  lemma RefundCommits(sys: System, pid: Pid)
    requires SystemOk(sys) && pid in sys.processes && sys.processes[pid].RefundChecked?
    ensures var RefundChecked(p, order, amount) := sys.processes[pid];
            SystemOk(End(sys.(db := RefundProofs.Refunded(sys.db, RefundProofs.Asked(p, order, amount))), pid))
  {
    hide Inv, Evolves, SystemOk, ProcessOk, End, RefundProofs.MayRefund, RefundProofs.Refunded, LocksFarmers;
    var RefundChecked(p, order, amount) := sys.processes[pid];
    var row := RefundProofs.Asked(p, order, amount);
    var t := RefundProofs.Refunded(sys.db, row);
    SystemFacts(sys);
    CheckedFacts(sys.db, sys.locks, pid, p, order, amount);
    ItemsFresh(sys.db);
    RefundProofs.NewRefundKeeps(sys.db, p, order, amount);
    forall q | q in sys.processes && q != pid {
      ProcessBesideRefund(sys.db, sys.locks, q, sys.processes[q], pid, row);
    }
    EndKeeps(sys.(db := t), pid);
  }

  lemma CheckedFacts(db: State, locks: map<Lock, Pid>, pid: Pid, p: Id, order: Option<Id>, amount: nat)
    requires ProcessOk(db, locks, pid, RefundChecked(p, order, amount))
    ensures RefundProofs.MayRefund(db, p, order, amount) && Holds(locks, OfPayment(p), pid) && p in db.payments
    ensures order.None? && db.payments[p].status.Succeeded? ==> LocksFarmers(db, locks, pid, p)
  {
    hide LiveItemOn, RefundedOn, Remaining, RefundsOrder, LocksFarmers;
  }

  lemma ApprovalCommits(sys: System, pid: Pid, buffer: seq<Entry>)
    requires SystemOk(sys) && BufferOk(sys.db, sys.locks, pid, buffer)
    ensures SystemOk(End(sys.(db := PayAll(sys.db, buffer)), pid))
  {
    hide Inv, SystemOk, ProcessOk, End, PayAll, BufferOk;
    SystemFacts(sys);
    assert buffer + [] == buffer;
    PayAllKeeps(sys.db, sys.locks, pid, buffer, [], sys.processes);
    EndKeeps(sys.(db := PayAll(sys.db, buffer)), pid);
  }

  lemma BufferGrows(s: State, locks: map<Lock, Pid>, pid: Pid, buffer: seq<Entry>, farmer: Id, due: map<Id, Order>)
    requires BufferOk(s, locks, pid, buffer) && Holds(locks, OfFarmer(farmer), pid)
    requires PayoutProofs.MayPay(s, farmer, due)
    ensures var unpaid := map o | o in due && !Buffered(buffer, o) :: due[o];
            BufferOk(s, locks, pid, buffer + [Entry(farmer, unpaid)])
  {
    hide WholeRefund, LiveItem;
    var unpaid := map o | o in due && !Buffered(buffer, o) :: due[o];
    forall k | 0 <= k < |buffer|
      ensures buffer[k].due.Keys !! unpaid.Keys
    {
    }
  }

  lemma ApprovingKeeps(config: Config, sys: System, pid: Pid, now: int)
    requires SystemOk(sys) && pid in sys.processes && (sys.processes[pid].Approving? || sys.processes[pid].FarmerLocked?)
    ensures SystemOk(Step(config, sys, pid, now))
  {
    hide Inv, SystemOk, BufferOk, Due, PayAll, End, Take, GoOn;
    SystemFacts(sys);
    match sys.processes[pid]
    case Approving(todo, buffer) =>
      if todo == [] {
        ApprovalCommits(sys, pid, buffer);
      } else if Free(sys.locks, OfFarmer(todo[0]), pid) {
        BufferKept(sys.db, sys.locks, pid, todo[0], buffer);
        TakeKeeps(sys, pid, OfFarmer(todo[0]), FarmerLocked(todo[0], todo[1..], buffer));
      }
    case FarmerLocked(farmer, todo, buffer) =>
      var due := Due(sys.db, config, farmer, now);
      PayoutProofs.DueMay(sys.db, config, farmer, now);
      BufferGrows(sys.db, sys.locks, pid, buffer, farmer, due);
      var unpaid := map o | o in due && !Buffered(buffer, o) :: due[o];
      GoOnKeeps(sys, pid, Approving(todo, if unpaid == map[] then buffer else buffer + [Entry(farmer, unpaid)]));
  }

  lemma BufferKept(s: State, locks: map<Lock, Pid>, pid: Pid, farmer: Id, buffer: seq<Entry>)
    requires BufferOk(s, locks, pid, buffer)
    ensures BufferOk(s, locks[OfFarmer(farmer) := pid], pid, buffer)
  {
    hide PayoutProofs.MayPay;
  }

  lemma StepKeeps(config: Config, sys: System, pid: Pid, now: int)
    requires SystemOk(sys)
    ensures SystemOk(Step(config, sys, pid, now))
  {
    hide Inv, SystemOk, BufferOk, Due, PayAll, AfterRead, RefundProofs.MayRefund, End, Take, GoOn, LiveItemOn;
    if pid in sys.processes {
      SystemFacts(sys);
      match sys.processes[pid]
      case RefundCalled(p, order) =>
        if Free(sys.locks, OfPayment(p), pid) {
          TakeKeeps(sys, pid, OfPayment(p), PaymentLocked(p, order));
        }
      case PaymentLocked(p, order) => ReadKeeps(sys, pid, p, order);
      case TakingFarmers(_, _, _) => TakingKeeps(config, sys, pid, now);
      case RefundChecked(_, _, _) => RefundCommits(sys, pid);
      case Approving(_, _) => ApprovingKeeps(config, sys, pid, now);
      case FarmerLocked(_, _, _) => ApprovingKeeps(config, sys, pid, now);
      case Ended =>
    }
  }

  // ----- Any schedule -----

  // Nothing is locked yet and every process has only been called.
  ghost predicate Starts(config: Config, sys: System) {
    && Runs.Reachable(config, sys.db) && sys.locks == map[]
    && forall pid | pid in sys.processes ::
         sys.processes[pid].RefundCalled? || (sys.processes[pid].Approving? && sys.processes[pid].buffer == [])
  }

  lemma {:induction false} ScheduleKeeps(config: Config, sys: System, actions: seq<Action>)
    requires SystemOk(sys)
    ensures SystemOk(Schedule(config, sys, actions))
  {
    hide SystemOk, Step, Runs.After;
    if actions != [] {
      var n := |actions| - 1;
      ScheduleKeeps(config, sys, actions[..n]);
      match actions[n]
      case Go(pid, now) => StepKeeps(config, Schedule(config, sys, actions[..n]), pid, now);
      case Other(event) =>
        if !Contends(event) {
          OtherKeeps(config, Schedule(config, sys, actions[..n]), event);
        }
    }
  }

  /**
   * However refunds, approvals and every other transaction interleave, the committed ledger is always
   * in order: so no payment is refunded beyond its charge, no order is refunded or paid out twice, and
   * refunds and payouts together stay within the money that came in.
   */
  lemma InterleavingKeepsOrder(config: Config, sys: System, actions: seq<Action>)
    requires Starts(config, sys)
    ensures Inv(Schedule(config, sys, actions).db)
  {
    hide Inv, Runs.Reachable;
    Runs.ReachableOk(config, sys.db);
    ScheduleKeeps(config, sys, actions);
  }

  /**
   * No schedule ever commits both a live refund of a whole payment and a live payout of an order it paid
   * for, even after refunds fail and payouts fail or are reversed.
   */
  lemma NeverBoth(config: Config, sys: System, actions: seq<Action>, i: (Id, Id), r: Id)
    requires Starts(config, sys)
    ensures var s := Schedule(config, sys, actions).db;
            !(i in s.items && s.items[i].Live() && s.items[i].order in s.orders &&
              r in s.refunds && s.refunds[r].order.None? && s.refunds[r].Live() &&
              s.refunds[r].payment in s.payments && s.payments[s.refunds[r].payment].status.Succeeded? &&
              s.orders[s.items[i].order].checkout == Some(s.payments[s.refunds[r].payment].checkout))
  {
    hide Inv, Starts, Schedule, PayoutsOk;
    InterleavingKeepsOrder(config, sys, actions);
    PayoutProofs.PayoutTables(Schedule(config, sys, actions).db);
  }

  /** Solvency survives any schedule. */
  lemma SolventUnderInterleaving(config: Config, sys: System, actions: seq<Action>, p: Id)
    requires Starts(config, sys)
    ensures var s := Schedule(config, sys, actions).db;
            p in s.payments && s.payments[p].status.Succeeded? ==>
              Sum(s.refunds, LiveOn(p)) * s.payments[p].amount
              + Sum(s.items, Solvency.PaidOutOf(s.orders, s.payments[p].checkout)) * s.payments[p].charged
              <= s.payments[p].amount * s.payments[p].charged
  {
    hide Inv, Starts, Schedule;
    InterleavingKeepsOrder(config, sys, actions);
    var s := Schedule(config, sys, actions).db;
    if p in s.payments && s.payments[p].status.Succeeded? {
      Solvency.SolventIn(s, p);
    }
  }
}
