/**
 * Refunds and payout approvals always finish. Each takes its locks in one order, so however they
 * interleave with each other and with every other transaction, some unfinished one can always take a
 * step, and each step brings them all closer to their end.
 */
module Progress {
  import opened Rows
  import opened Sums
  import opened Ids
  import opened Payouts
  import opened Interleaving
  import RefundProofs
  import Runs

  // ----- The order locks are taken in -----

  predicate Rises(todo: seq<Id>) {
    forall i, j | 0 <= i < j < |todo| :: todo[i] <= todo[j]
  }

  predicate TodoRises(process: Process) {
    match process
    case TakingFarmers(_, _, todo) => Rises(todo)
    case Approving(todo, _) => Rises(todo)
    case FarmerLocked(_, todo, _) => Rises(todo)
    case _ => true
  }

  // A lock of a farmer no later than any still to be taken.
  predicate NoLater(lock: Lock, todo: seq<Id>) {
    lock.OfFarmer? && forall i | 0 <= i < |todo| :: lock.farmer <= todo[i]
  }

  predicate MayHold(lock: Lock, process: Process) {
    match process
    case RefundCalled(_, _) => false
    case PaymentLocked(p, _) => lock == OfPayment(p)
    case TakingFarmers(p, _, todo) => lock == OfPayment(p) || NoLater(lock, todo)
    case RefundChecked(_, _, _) => true
    case Approving(todo, _) => NoLater(lock, todo)
    case FarmerLocked(_, todo, _) => NoLater(lock, todo)
    case Ended => false
  }

  /** Every lock is held by a process under way, and comes before those that process has yet to take. */
  ghost predicate LocksInOrder(processes: map<Pid, Process>, locks: map<Lock, Pid>) {
    && (forall lock | lock in locks :: locks[lock] in processes && MayHold(lock, processes[locks[lock]]))
    && (forall pid | pid in processes :: TodoRises(processes[pid]))
  }

  lemma FirstRises(todo: seq<Id>)
    requires todo != [] && Rises(todo)
    ensures Rises(todo[1..]) && NoLater(OfFarmer(todo[0]), todo[1..])
    ensures forall lock: Lock | NoLater(lock, todo) :: NoLater(lock, todo[1..])
  {
  }

  lemma AscendingRises(ids: set<Id>)
    ensures Rises(Ascending(ids))
  {
    AscendingIncreases(ids);
  }

  lemma EndOrder(sys: System, pid: Pid)
    requires LocksInOrder(sys.processes, sys.locks)
    ensures LocksInOrder(End(sys, pid).processes, End(sys, pid).locks)
  {
    hide MayHold, TodoRises;
    assert TodoRises(Ended) by { EndedRises(); }
  }

  lemma EndedRises()
    ensures TodoRises(Ended)
  {
  }

  lemma GoOnOrder(sys: System, pid: Pid, now: Process)
    requires LocksInOrder(sys.processes, sys.locks) && pid in sys.processes && TodoRises(now)
    requires forall lock | lock in sys.locks && sys.locks[lock] == pid :: MayHold(lock, now)
    ensures LocksInOrder(GoOn(sys, pid, now).processes, GoOn(sys, pid, now).locks)
  {
    hide MayHold, TodoRises;
  }

  lemma TakeOrder(sys: System, pid: Pid, lock: Lock, now: Process)
    requires LocksInOrder(sys.processes, sys.locks) && pid in sys.processes && TodoRises(now) && MayHold(lock, now)
    requires forall l | l in sys.locks && sys.locks[l] == pid :: MayHold(l, now)
    ensures LocksInOrder(Take(sys, pid, lock, now).processes, Take(sys, pid, lock, now).locks)
  {
    hide MayHold, TodoRises;
  }

  lemma ReadOrder(sys: System, pid: Pid, p: Id, order: Option<Id>)
    requires LocksInOrder(sys.processes, sys.locks) && pid in sys.processes && sys.processes[pid] == PaymentLocked(p, order)
    ensures var t := AfterRead(sys, pid, p, order); LocksInOrder(t.processes, t.locks)
  {
    hide LocksInOrder, End, GoOn, FarmersOf, Refunds.OrderAmount, Refunds.Remaining;
    EndOrder(sys, pid);
    Held(sys, pid);
    if p in sys.db.payments {
      var todo := Ascending(FarmersOf(sys.db.orders, sys.db.payments[p].checkout));
      AscendingRises(FarmersOf(sys.db.orders, sys.db.payments[p].checkout));
      GoOnOrder(sys, pid, TakingFarmers(p, Refunds.Remaining(sys.db.payments, sys.db.refunds, p), todo));
    }
    forall amount: nat, asked: Option<Id>
      ensures var t := GoOn(sys, pid, RefundChecked(p, asked, amount)); LocksInOrder(t.processes, t.locks)
    {
      GoOnOrder(sys, pid, RefundChecked(p, asked, amount));
    }
  }

  lemma Held(sys: System, pid: Pid)
    requires LocksInOrder(sys.processes, sys.locks) && pid in sys.processes
    ensures TodoRises(sys.processes[pid])
    ensures forall lock | lock in sys.locks && sys.locks[lock] == pid :: MayHold(lock, sys.processes[pid])
  {
    hide MayHold, TodoRises;
  }

  /** A step of any process keeps the locks in order. */
  lemma StepOrder(config: Config, sys: System, pid: Pid, now: int)
    requires LocksInOrder(sys.processes, sys.locks)
    ensures var t := Step(config, sys, pid, now); LocksInOrder(t.processes, t.locks)
  {
    hide LocksInOrder, End, GoOn, Take, AfterRead, PayAll, Due, Refunds.LiveItemOn, RefundProofs.Refunded, Rises, NoLater;
    if pid in sys.processes {
      Held(sys, pid);
      EndOrder(sys, pid);
      match sys.processes[pid]
      case RefundCalled(p, order) => TakeOrder(sys, pid, OfPayment(p), PaymentLocked(p, order));
      case PaymentLocked(p, order) => ReadOrder(sys, pid, p, order);
      case TakingFarmers(p, remaining, todo) =>
        if todo != [] {
          FirstRises(todo);
          TakeOrder(sys, pid, OfFarmer(todo[0]), TakingFarmers(p, remaining, todo[1..]));
        } else if remaining > 0 {
          GoOnOrder(sys, pid, RefundChecked(p, None, remaining));
        }
      case RefundChecked(p, order, amount) =>
        EndOrder(sys.(db := RefundProofs.Refunded(sys.db, RefundProofs.Asked(p, order, amount))), pid);
      case Approving(todo, buffer) =>
        EndOrder(sys.(db := PayAll(sys.db, buffer)), pid);
        if todo != [] {
          FirstRises(todo);
          TakeOrder(sys, pid, OfFarmer(todo[0]), FarmerLocked(todo[0], todo[1..], buffer));
        }
      case FarmerLocked(farmer, todo, buffer) =>
        var due := Due(sys.db, config, farmer, now);
        var unpaid := map o | o in due && !Buffered(buffer, o) :: due[o];
        GoOnOrder(sys, pid, Approving(todo, if unpaid == map[] then buffer else buffer + [Entry(farmer, unpaid)]));
      case Ended =>
    }
  }

  // ----- Somebody can always go on -----

  // The lock a process has to take next, if that is its next step.
  function Wanted(process: Process): Option<Lock> {
    match process
    case RefundCalled(p, _) => Some(OfPayment(p))
    case TakingFarmers(_, _, todo) => if todo == [] then None else Some(OfFarmer(todo[0]))
    case Approving(todo, _) => if todo == [] then None else Some(OfFarmer(todo[0]))
    case _ => None
  }

  predicate Waits(sys: System, pid: Pid) {
    && pid in sys.processes && Wanted(sys.processes[pid]).Some?
    && !Free(sys.locks, Wanted(sys.processes[pid]).value, pid)
  }

  predicate CanGo(sys: System, pid: Pid) {
    pid in sys.processes && !sys.processes[pid].Ended? && !Waits(sys, pid)
  }

  predicate AllEnded(sys: System) {
    forall pid | pid in sys.processes :: sys.processes[pid].Ended?
  }

  predicate Below(a: Lock, b: Lock) {
    match (a, b)
    case (OfPayment(_), OfFarmer(_)) => true
    case (OfPayment(p), OfPayment(q)) => p < q
    case (OfFarmer(f), OfFarmer(g)) => f < g
    case (OfFarmer(_), OfPayment(_)) => false
  }

  lemma BelowOrders(a: Lock, b: Lock, c: Lock)
    ensures !Below(a, a) && (Below(a, b) && Below(b, c) ==> Below(a, c))
  {
  }

  // Of those waiting, one wants a lock nobody else wants a later one than.
  lemma {:induction false} HasLast(sys: System, waiting: set<Pid>) returns (top: Pid)
    requires waiting != {} && forall pid | pid in waiting :: Waits(sys, pid)
    ensures top in waiting && Waits(sys, top)
    ensures forall pid | pid in waiting && Waits(sys, pid) ::
              !Below(Wanted(sys.processes[top]).value, Wanted(sys.processes[pid]).value)
    decreases waiting
  {
    hide Below, Wanted, Free;
    var pid: Pid :| pid in waiting;
    var rest := waiting - {pid};
    top := pid;
    BelowOrders(Wanted(sys.processes[pid]).value, Wanted(sys.processes[pid]).value, Wanted(sys.processes[pid]).value);
    if rest == {} {
      assert waiting == {pid};
    } else {
      var m := HasLast(sys, rest);
      if !Below(Wanted(sys.processes[m]).value, Wanted(sys.processes[pid]).value) {
        top := m;
      }
      forall q | q in waiting && Waits(sys, q)
        ensures !Below(Wanted(sys.processes[top]).value, Wanted(sys.processes[q]).value)
      {
        assert q == pid || q in rest;
        BelowOrders(Wanted(sys.processes[m]).value, Wanted(sys.processes[pid]).value, Wanted(sys.processes[q]).value);
      }
    }
  }

  // A process that waits itself wants something later than any lock it holds.
  lemma HolderWantsMore(sys: System, lock: Lock, pid: Pid)
    requires LocksInOrder(sys.processes, sys.locks) && lock in sys.locks && sys.locks[lock] == pid && Waits(sys, pid)
    ensures Below(lock, Wanted(sys.processes[pid]).value)
  {
    Held(sys, pid);
  }

  /** While any refund or approval is unfinished, one of them is waiting for nobody. */
  lemma SomebodyCanGo(sys: System)
    requires LocksInOrder(sys.processes, sys.locks) && !AllEnded(sys)
    ensures exists pid: Pid :: CanGo(sys, pid)
  {
    hide LocksInOrder, Wanted, Below, MayHold;
    var waiting := set pid | pid in sys.processes && Waits(sys, pid);
    if forall pid | pid in sys.processes && !sys.processes[pid].Ended? :: Waits(sys, pid) {
      assert waiting != {} by {
        var pid: Pid :| pid in sys.processes && !sys.processes[pid].Ended?;
        assert pid in waiting;
      }
      var top := HasLast(sys, waiting);
      var lock := Wanted(sys.processes[top]).value;
      HolderUnderWay(sys, lock);
      HolderWantsMore(sys, lock, sys.locks[lock]);
      assert sys.locks[lock] in waiting;
    } else {
      var pid: Pid :| pid in sys.processes && !sys.processes[pid].Ended? && !Waits(sys, pid);
      assert CanGo(sys, pid);
    }
  }

  lemma HolderUnderWay(sys: System, lock: Lock)
    requires LocksInOrder(sys.processes, sys.locks) && lock in sys.locks
    ensures sys.locks[lock] in sys.processes && !sys.processes[sys.locks[lock]].Ended?
  {
  }

  // ----- Every step leads to the end -----

  function Farmers(orders: map<Id, Order>): set<Id> {
    set o | o in orders :: orders[o].farmer
  }

  // At most how many steps a process has left, when `n` farmers have orders.
  ghost function StepsLeft(n: nat): Process -> int {
    (process: Process) =>
      match process
      case RefundCalled(_, _) => n + 4
      case PaymentLocked(_, _) => n + 3
      case TakingFarmers(_, _, todo) => |todo| + 2
      case RefundChecked(_, _, _) => 1
      case Approving(todo, _) => 2 * |todo| + 1
      case FarmerLocked(_, todo, _) => 2 * |todo| + 2
      case Ended => 0
  }

  ghost function Work(sys: System): nat {
    SumNonNegative(sys.processes, StepsLeft(|Farmers(sys.db.orders)|));
    Sum(sys.processes, StepsLeft(|Farmers(sys.db.orders)|))
  }

  lemma {:induction false} AscendingLength(ids: set<Id>)
    ensures |Ascending(ids)| == |ids|
    decreases ids
  {
    if ids != {} {
      assert ids - {Max(ids)} < ids;
      AscendingLength(ids - {Max(ids)});
    }
  }

  lemma {:induction false} SubsetSmaller(a: set<Id>, b: set<Id>)
    requires a <= b
    ensures |a| <= |b|
  {
    assert b == a + (b - a);
  }

  lemma {:induction false} PayAllOrders(s: State, buffer: seq<Entry>)
    ensures PayAll(s, buffer).orders == s.orders
  {
    hide Total, NewItems;
    if buffer != [] {
      PayAllOrders(s, buffer[..|buffer| - 1]);
    }
  }

  lemma RefundedOrders(s: State, row: Refund)
    ensures RefundProofs.Refunded(s, row).orders == s.orders
  {
  }

  // A process that can go on has fewer steps left after it has.
  lemma ProcessMoves(config: Config, sys: System, pid: Pid, now: int)
    requires CanGo(sys, pid)
    ensures var t := Step(config, sys, pid, now);
            && pid in t.processes && t.processes == sys.processes[pid := t.processes[pid]]
            && t.db.orders == sys.db.orders
            && var n := |Farmers(sys.db.orders)|;
            StepsLeft(n)(t.processes[pid]) < StepsLeft(n)(sys.processes[pid])
  {
    hide PayAll, Due, Refunds.LiveItemOn, RefundProofs.Refunded, AfterRead, Farmers;
    match sys.processes[pid]
    case PaymentLocked(p, order) => ReadMoves(sys, pid, p, order);
    case RefundChecked(p, order, amount) => RefundedOrders(sys.db, RefundProofs.Asked(p, order, amount));
    case Approving(_, buffer) => PayAllOrders(sys.db, buffer);
    case _ =>
  }

  lemma ReadMoves(sys: System, pid: Pid, p: Id, order: Option<Id>)
    ensures var t := AfterRead(sys, pid, p, order);
            && pid in t.processes && t.processes == sys.processes[pid := t.processes[pid]] && t.db == sys.db
            && var n := |Farmers(sys.db.orders)|; StepsLeft(n)(t.processes[pid]) <= n + 2
  {
    hide Refunds.OrderAmount, Refunds.Remaining;
    if p in sys.db.payments {
      var farmers := FarmersOf(sys.db.orders, sys.db.payments[p].checkout);
      AscendingLength(farmers);
      SubsetSmaller(farmers, Farmers(sys.db.orders));
    }
  }

  lemma StepWorks(config: Config, sys: System, pid: Pid, now: int)
    requires CanGo(sys, pid)
    ensures Work(Step(config, sys, pid, now)) < Work(sys)
  {
    hide Step, StepsLeft, Farmers, CanGo;
    ProcessMoves(config, sys, pid, now);
    var t := Step(config, sys, pid, now);
    assert pid in sys.processes by { CanGoRuns(sys, pid); }
    SumUpdate(sys.processes, StepsLeft(|Farmers(sys.db.orders)|), pid, t.processes[pid]);
  }

  lemma CanGoRuns(sys: System, pid: Pid)
    requires CanGo(sys, pid)
    ensures pid in sys.processes
  {
  }

  // Steps of processes only, each by one that waits for nobody.
  ghost predicate Effective(config: Config, sys: System, actions: seq<Action>)
    decreases |actions|
  {
    actions == [] ||
    (actions[0].Go? && CanGo(sys, actions[0].pid) && Effective(config, Next(config, sys, actions[0]), actions[1..]))
  }

  lemma {:induction false} ScheduleOn(config: Config, sys: System, action: Action, rest: seq<Action>)
    ensures Schedule(config, sys, [action] + rest) == Schedule(config, Next(config, sys, action), rest)
  {
    hide Next;
    var all := [action] + rest;
    if rest == [] {
      assert all[..0] == [] && all == [action];
      assert Schedule(config, sys, all[..0]) == sys;
    } else {
      var n := |rest| - 1;
      ScheduleOn(config, sys, action, rest[..n]);
      assert all[..|all| - 1] == [action] + rest[..n];
    }
  }

  /**
   * Left to themselves, refunds and approvals take no more steps than they have left, whoever goes when;
   * and when none can go on, all have ended.
   */
  lemma {:induction false} StepsRunOut(config: Config, sys: System, actions: seq<Action>)
    requires LocksInOrder(sys.processes, sys.locks) && Effective(config, sys, actions)
    ensures |actions| <= Work(sys)
    ensures var t := Schedule(config, sys, actions); AllEnded(t) || exists pid: Pid :: CanGo(t, pid)
    decreases |actions|
  {
    hide LocksInOrder, Work, Step, CanGo;
    if actions == [] {
      if !AllEnded(sys) {
        SomebodyCanGo(sys);
      }
    } else {
      var Go(pid, now) := actions[0];
      StepOrder(config, sys, pid, now);
      StepWorks(config, sys, pid, now);
      StepsRunOut(config, Step(config, sys, pid, now), actions[1..]);
      ScheduleOn(config, sys, actions[0], actions[1..]);
      assert [actions[0]] + actions[1..] == actions;
    }
  }

  lemma {:induction false} CanFinish(config: Config, sys: System)
    requires LocksInOrder(sys.processes, sys.locks)
    ensures exists actions :: Effective(config, sys, actions) && AllEnded(Schedule(config, sys, actions))
    decreases Work(sys)
  {
    hide LocksInOrder, Work, Step, CanGo, AllEnded;
    if AllEnded(sys) {
      assert Effective(config, sys, []) && Schedule(config, sys, []) == sys;
    } else {
      SomebodyCanGo(sys);
      var pid: Pid :| CanGo(sys, pid);
      var action := Go(pid, 0);
      StepOrder(config, sys, pid, 0);
      StepWorks(config, sys, pid, 0);
      CanFinish(config, Step(config, sys, pid, 0));
      var rest :| Effective(config, Next(config, sys, action), rest) &&
        AllEnded(Schedule(config, Next(config, sys, action), rest));
      ScheduleOn(config, sys, action, rest);
      assert ([action] + rest)[1..] == rest;
      assert Effective(config, sys, [action] + rest);
    }
  }

  // ----- Any schedule -----

  // Approvals are called with their farmers in order; duplicates do no harm.
  ghost predicate Called(config: Config, sys: System) {
    Starts(config, sys) && forall pid | pid in sys.processes :: TodoRises(sys.processes[pid])
  }

  lemma {:induction false} ScheduleOrder(config: Config, sys: System, actions: seq<Action>)
    requires LocksInOrder(sys.processes, sys.locks)
    ensures var t := Schedule(config, sys, actions); LocksInOrder(t.processes, t.locks)
  {
    hide LocksInOrder, Step, Runs.After;
    if actions != [] {
      var n := |actions| - 1;
      ScheduleOrder(config, sys, actions[..n]);
      if actions[n].Go? {
        StepOrder(config, Schedule(config, sys, actions[..n]), actions[n].pid, actions[n].now);
      }
    }
  }

  /**
   * At every point of every schedule of refunds, approvals and all other transactions, either every refund
   * and approval has ended or one of them can take a step, and from there they can all be brought to their
   * end by steps of their own.
   */
  lemma NeverStuck(config: Config, sys: System, actions: seq<Action>)
    requires Called(config, sys)
    ensures var t := Schedule(config, sys, actions);
            && (AllEnded(t) || exists pid: Pid :: CanGo(t, pid))
            && exists more :: Effective(config, t, more) && AllEnded(Schedule(config, t, more))
  {
    hide Schedule, CanGo, Effective, AllEnded, Runs.Reachable;
    ScheduleOrder(config, sys, actions);
    var t := Schedule(config, sys, actions);
    if !AllEnded(t) {
      SomebodyCanGo(t);
    }
    CanFinish(config, t);
  }
}
