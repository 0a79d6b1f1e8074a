/**
 * Why concurrent transactions cannot deadlock: each takes its advisory locks and produce rows in one
 * strictly increasing order. The rows of sourcing requests are not among them, because the program
 * takes those in both orders.
 */
module Deadlock {
  import opened Rows
  import opened Sums
  import Checkouts
  import CheckoutProofs
  import opened Ids

  type Pid = nat

  datatype Resource =
    | PaymentLock(id: Id)
    | FarmerLock(id: Id)
    | SourcingLock(id: Id)
    | CartLock(id: Id)
    | CheckoutLock(id: Id)
    | ProduceRow(id: Id)
    | PayoutLock(id: Id)
  {
    function Class(): nat {
      match this
      case PaymentLock(_) => 0
      case FarmerLock(_) => 1
      case SourcingLock(_) => 2
      case CartLock(_) => 3
      case CheckoutLock(_) => 4
      case ProduceRow(_) => 5
      case PayoutLock(_) => 6
    }
  }

  predicate Below(a: Resource, b: Resource) {
    a.Class() < b.Class() || (a.Class() == b.Class() && a.id < b.id)
  }

  predicate Increasing(plan: seq<Resource>) {
    forall i, j | 0 <= i < j < |plan| :: Below(plan[i], plan[j])
  }

  /** A transaction part way through the locks it takes; it lets go of all of them when it is done. */
  datatype Transaction = Transaction(plan: seq<Resource>, taken: nat, done: bool)

  predicate Holds(t: Transaction, r: Resource) {
    !t.done && exists k | 0 <= k < t.taken && k < |t.plan| :: t.plan[k] == r
  }

  // Running transactions hold different resources, having taken part of an increasing plan each.
  ghost predicate Sound(all: map<Pid, Transaction>) {
    && (forall p | p in all :: all[p].taken <= |all[p].plan| && Increasing(all[p].plan))
    && (forall p, q, r: Resource | p in all && q in all && Holds(all[p], r) && Holds(all[q], r) :: p == q)
  }

  predicate Waits(all: map<Pid, Transaction>, p: Pid, q: Pid)
    requires p in all && q in all
  {
    p != q && !all[p].done && all[p].taken < |all[p].plan| && Holds(all[q], all[p].plan[all[p].taken])
  }

  predicate Ready(all: map<Pid, Transaction>, p: Pid) {
    p in all && !all[p].done && forall q | q in all :: !Waits(all, p, q)
  }

  // Takes the next lock of the plan, or commits and lets go of everything.
  function Advance(all: map<Pid, Transaction>, p: Pid): map<Pid, Transaction>
    requires p in all
  {
    var t := all[p];
    all[p := if t.taken < |t.plan| then t.(taken := t.taken + 1) else t.(done := true)]
  }

  function Wanted(t: Transaction): Resource
    requires t.taken < |t.plan|
  {
    t.plan[t.taken]
  }

  // ----- Somebody can always go on -----

  lemma BelowOrders(a: Resource, b: Resource, c: Resource)
    ensures !Below(a, a)
    ensures Below(a, b) && Below(b, c) ==> Below(a, c)
  {
  }

  lemma {:induction false} HasMaximal(all: map<Pid, Transaction>, waiting: set<Pid>)
    requires waiting != {} && waiting <= all.Keys
    requires forall p | p in waiting :: all[p].taken < |all[p].plan|
    ensures exists p :: p in waiting && forall q | q in waiting :: !Below(Wanted(all[p]), Wanted(all[q]))
    decreases waiting
  {
    hide Below;
    var p: Pid :| p in waiting;
    var rest := waiting - {p};
    BelowOrders(Wanted(all[p]), Wanted(all[p]), Wanted(all[p]));
    if rest == {} {
      assert waiting == {p};
    } else {
      assert rest < waiting;
      HasMaximal(all, rest);
      var m: Pid :| m in rest && forall q | q in rest :: !Below(Wanted(all[m]), Wanted(all[q]));
      var top := if Below(Wanted(all[m]), Wanted(all[p])) then p else m;
      forall q | q in waiting
        ensures !Below(Wanted(all[top]), Wanted(all[q]))
      {
        assert q == p || q in rest;
        BelowOrders(Wanted(all[m]), Wanted(all[p]), Wanted(all[q]));
      }
    }
  }

  // Whoever holds what another waits for wants something higher.
  lemma HolderWantsMore(t: Transaction, r: Resource)
    requires Increasing(t.plan) && t.taken < |t.plan| && Holds(t, r)
    ensures Below(r, Wanted(t))
  {
  }

  /** While any transaction is unfinished, some transaction is waiting for nobody. */
  lemma NoDeadlock(all: map<Pid, Transaction>)
    requires Sound(all) && exists p | p in all :: !all[p].done
    ensures exists p: Pid :: Ready(all, p)
  {
    var unfinished := set p | p in all && !all[p].done;
    var some: Pid :| some in all && !all[some].done;
    assert some in unfinished;
    if p: Pid :| p in unfinished && all[p].taken == |all[p].plan| {
      assert Ready(all, p);
    } else {
      HasMaximal(all, unfinished);
      var p: Pid :| p in unfinished && forall q | q in unfinished :: !Below(Wanted(all[p]), Wanted(all[q]));
      forall q | q in all
        ensures !Waits(all, p, q)
      {
        if Waits(all, p, q) {
          assert q in unfinished;
          HolderWantsMore(all[q], Wanted(all[p]));
        }
      }
      assert Ready(all, p);
    }
  }

  lemma HeldAfter(t: Transaction, r: Resource)
    requires t.taken < |t.plan| && Holds(t.(taken := t.taken + 1), r)
    ensures Holds(t, r) || r == Wanted(t)
  {
  }

  lemma AdvanceSound(all: map<Pid, Transaction>, p: Pid)
    requires Sound(all) && Ready(all, p)
    ensures Sound(Advance(all, p))
  {
    var after := Advance(all, p);
    forall q, r: Resource | q in all && q != p && Holds(after[q], r) && Holds(after[p], r)
      ensures false
    {
      assert !Waits(all, p, q);
      HeldAfter(all[p], r);
    }
  }

  // ----- Everybody finishes -----

  ghost function Left(): Transaction -> int {
    (t: Transaction) => if t.done || t.taken > |t.plan| then 0 else |t.plan| + 1 - t.taken
  }

  ghost function Work(all: map<Pid, Transaction>): int {
    Sum(all, Left())
  }

  lemma AdvanceWorks(all: map<Pid, Transaction>, p: Pid)
    requires Sound(all) && Ready(all, p)
    ensures Work(Advance(all, p)) == Work(all) - 1
  {
    SumUpdate(all, Left(), p, Advance(all, p)[p]);
  }

  ghost predicate Valid(all: map<Pid, Transaction>, schedule: seq<Pid>)
    decreases |schedule|
  {
    schedule == [] || (Ready(all, schedule[0]) && Valid(Advance(all, schedule[0]), schedule[1..]))
  }

  ghost function Outcome(all: map<Pid, Transaction>, schedule: seq<Pid>): map<Pid, Transaction>
    requires Valid(all, schedule)
    decreases |schedule|
  {
    if schedule == [] then all else Outcome(Advance(all, schedule[0]), schedule[1..])
  }

  predicate AllDone(all: map<Pid, Transaction>) {
    forall p | p in all :: all[p].done
  }

  lemma WorkNatural(all: map<Pid, Transaction>)
    ensures Work(all) >= 0
  {
    SumNonNegative(all, Left());
  }

  /**
   * However transactions are scheduled, they take no more steps than the locks they have left to take
   * and the commits they have left to make; and a schedule that cannot be continued has finished them all.
   */
  lemma {:induction false} SchedulesFinish(all: map<Pid, Transaction>, schedule: seq<Pid>)
    requires Sound(all) && Valid(all, schedule)
    ensures |schedule| <= Work(all)
    ensures (forall p: Pid :: !Ready(Outcome(all, schedule), p)) ==> AllDone(Outcome(all, schedule))
    decreases |schedule|
  {
    if schedule == [] {
      WorkNatural(all);
      if !AllDone(all) {
        NoDeadlock(all);
      }
    } else {
      AdvanceSound(all, schedule[0]);
      AdvanceWorks(all, schedule[0]);
      SchedulesFinish(Advance(all, schedule[0]), schedule[1..]);
    }
  }

  /** From wherever they stand, all of them can be brought to an end. */
  lemma {:induction false} AllCanFinish(all: map<Pid, Transaction>)
    requires Sound(all)
    ensures exists schedule :: Valid(all, schedule) && AllDone(Outcome(all, schedule))
    decreases Work(all)
  {
    if AllDone(all) {
      assert Valid(all, []) && Outcome(all, []) == all;
    } else {
      NoDeadlock(all);
      var p: Pid :| Ready(all, p);
      AdvanceSound(all, p);
      AdvanceWorks(all, p);
      WorkNatural(Advance(all, p));
      AllCanFinish(Advance(all, p));
      var rest :| Valid(Advance(all, p), rest) && AllDone(Outcome(Advance(all, p), rest));
      var schedule := [p] + rest;
      assert schedule[1..] == rest;
      assert Valid(all, schedule) && Outcome(all, schedule) == Outcome(Advance(all, p), rest);
    }
  }

  // ----- The locks each call takes, in the order it takes them -----

  /**
   * The calls of the marketplace that lock, with the rows each has found it must lock. `EditListing` stands
   * for every call that writes one listing: confirming, cancelling or deleting an order, and the farmer's
   * and the admin's edits; `PayCheckout` for starting a payment and applying its charge.
   */
  datatype Job =
    | RefundWhole(payment: Id, farmers: set<Id>)
    | RefundOrder(payment: Id)
    | ApprovePayouts(farmers: set<Id>)
    | CartCheckout(buyer: Id, cart: map<Id, nat>)
    | BuyOne(buyer: Id, listing: Id)
    | ConfirmSelection(request: Id, allocations: map<Id, nat>)
    | EndCheckout(checkout: Id, listings: set<Id>)
    | CloseOver(request: Id, checkout: Id, listings: set<Id>)
    | PayCheckout(checkout: Id)
    | EditListing(listing: Id)
    | EditRequest(request: Id)
    | EditCart(buyer: Id)
    | SettleTransfer(payout: Id)

  function LineRows(lines: seq<Checkouts.Line>): seq<Resource> {
    seq(|lines|, i requires 0 <= i < |lines| => ProduceRow(lines[i].listing))
  }

  function IdRows(ids: set<Id>): seq<Resource> {
    var all := Ascending(ids);
    seq(|all|, i requires 0 <= i < |all| => ProduceRow(all[i]))
  }

  function FarmerLocks(ids: set<Id>): seq<Resource> {
    var all := Ascending(ids);
    seq(|all|, i requires 0 <= i < |all| => FarmerLock(all[i]))
  }

  function PlanOf(job: Job): seq<Resource> {
    match job
    case RefundWhole(p, farmers) => [PaymentLock(p)] + FarmerLocks(farmers)
    case RefundOrder(p) => [PaymentLock(p)]
    case ApprovePayouts(farmers) => FarmerLocks(farmers)
    case CartCheckout(buyer, cart) => [CartLock(buyer)] + LineRows(Checkouts.SortedLines(cart))
    case BuyOne(buyer, l) => [CartLock(buyer), ProduceRow(l)]
    case ConfirmSelection(r, allocations) => [SourcingLock(r)] + LineRows(Checkouts.SortedLines(allocations))
    case EndCheckout(c, listings) => [CheckoutLock(c)] + IdRows(listings)
    case CloseOver(r, c, listings) => [SourcingLock(r), CheckoutLock(c)] + IdRows(listings)
    case PayCheckout(c) => [CheckoutLock(c)]
    case EditListing(l) => [ProduceRow(l)]
    case EditRequest(r) => [SourcingLock(r)]
    case EditCart(buyer) => [CartLock(buyer)]
    case SettleTransfer(p) => [PayoutLock(p)]
  }

  lemma IdsIncrease(ids: set<Id>)
    ensures Increasing(IdRows(ids)) && forall i | 0 <= i < |IdRows(ids)| :: IdRows(ids)[i].ProduceRow?
    ensures Increasing(FarmerLocks(ids)) && forall i | 0 <= i < |FarmerLocks(ids)| :: FarmerLocks(ids)[i].FarmerLock?
  {
    AscendingIncreases(ids);
  }

  lemma LinesIncrease(cart: map<Id, nat>)
    ensures var rows := LineRows(Checkouts.SortedLines(cart));
            Increasing(rows) && forall i | 0 <= i < |rows| :: rows[i].ProduceRow?
  {
    CheckoutProofs.SortedLinesAre(cart);
  }

  // A lock of a lower class may come before them all.
  lemma FirstIncreases(first: Resource, rest: seq<Resource>)
    requires Increasing(rest) && forall i | 0 <= i < |rest| :: first.Class() < rest[i].Class()
    ensures Increasing([first] + rest)
  {
  }

  lemma LinesAfter(first: Resource, cart: map<Id, nat>)
    requires first.Class() < 5
    ensures Increasing([first] + LineRows(Checkouts.SortedLines(cart)))
  {
    hide Increasing, LineRows, Checkouts.SortedLines;
    LinesIncrease(cart);
    FirstIncreases(first, LineRows(Checkouts.SortedLines(cart)));
  }

  lemma RowsAfter(c: Id, ids: set<Id>)
    ensures var plan := [CheckoutLock(c)] + IdRows(ids);
            Increasing(plan) && forall i | 0 <= i < |plan| :: plan[i].Class() >= 4
  {
    hide Increasing, IdRows;
    IdsIncrease(ids);
    FirstIncreases(CheckoutLock(c), IdRows(ids));
  }

  lemma TwoIncrease(a: Resource, b: Resource)
    requires Below(a, b)
    ensures Increasing([a, b])
  {
  }

  predicate LocksOnce(job: Job) {
    job.RefundOrder? || job.PayCheckout? || job.EditListing? || job.EditRequest? || job.EditCart? || job.SettleTransfer?
  }

  lemma OneLockPlan(job: Job)
    requires LocksOnce(job)
    ensures Increasing(PlanOf(job))
  {
    hide Increasing;
    OneIncreases(PlanOf(job)[0]);
  }

  /** Every call takes its locks in strictly increasing order. */
  lemma PlansIncrease(job: Job)
    ensures Increasing(PlanOf(job))
  {
    hide Increasing, IdRows, FarmerLocks, LineRows, Checkouts.SortedLines;
    if LocksOnce(job) {
      OneLockPlan(job);
    } else {
      match job
      case RefundWhole(p, farmers) =>
        IdsIncrease(farmers);
        FirstIncreases(PaymentLock(p), FarmerLocks(farmers));
      case ApprovePayouts(farmers) => IdsIncrease(farmers);
      case CartCheckout(buyer, cart) => LinesAfter(CartLock(buyer), cart);
      case BuyOne(buyer, l) => TwoIncrease(CartLock(buyer), ProduceRow(l));
      case ConfirmSelection(r, allocations) => LinesAfter(SourcingLock(r), allocations);
      case EndCheckout(c, listings) => RowsAfter(c, listings);
      case CloseOver(r, c, listings) =>
        RowsAfter(c, listings);
        FirstIncreases(SourcingLock(r), [CheckoutLock(c)] + IdRows(listings));
        assert [SourcingLock(r)] + ([CheckoutLock(c)] + IdRows(listings)) == PlanOf(job);
      case _ =>
    }
  }

  lemma OneIncreases(r: Resource)
    ensures Increasing([r])
  {
  }

  /** Any number of these calls, started together with the locks they need, finish however they interleave. */
  lemma CallsFinish(jobs: map<Pid, Job>, schedule: seq<Pid>)
    requires Valid(map p | p in jobs :: Transaction(PlanOf(jobs[p]), 0, false), schedule)
    ensures var all := map p | p in jobs :: Transaction(PlanOf(jobs[p]), 0, false);
            && |schedule| <= Work(all)
            && ((exists p: Pid :: Ready(Outcome(all, schedule), p)) || AllDone(Outcome(all, schedule)))
  {
    var all := map p | p in jobs :: Transaction(PlanOf(jobs[p]), 0, false);
    forall p | p in jobs {
      PlansIncrease(jobs[p]);
    }
    SchedulesFinish(all, schedule);
  }
}
