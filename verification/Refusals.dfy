/**
 * What each call that is refused says stands in its way: the first thing that does, read off the rows and what the
 * caller passed. A call with nothing in its way goes through.
 */
module Refusals {
  import opened Rows
  import opened Sums
  import opened Stock
  import Sourcing
  import opened Checkouts
  import Orders
  import Payments
  import opened Refunds
  import opened Invariants
  import opened Runs
  import opened Quote
  import opened RequestStatus
  import OrderMoves
  import ListingMoves
  import RequestProofs
  import OrderProofs
  import Payouts
  import Solvency
  import opened Money

  /** The answer is the refusal named, or a commit when there is none. */
  predicate Answers(answer: Result<State>, refusal: Option<Error>) {
    match refusal
    case Some(error) => answer == Refused(error)
    case None => answer.Ok?
  }

  // ----- Checking out a cart -----

  function CartRefusal(s: State, config: Config, draft: Draft, shown: seq<Line>): Option<Error> {
    if shown == [] then Some(CartEmpty)
    else if !NoIssues(s.listings, s.verified, shown) then Some(CartNeedsAttention)
    else if !draft.deliverable then Some(InvalidDelivery)
    else if draft.expectedTotal != QuotedTotal(config, s.listings, s.verified, shown) then Some(CartPriceChanged)
    else None
  }

  lemma PlaceSays(s: State, config: Config, draft: Draft, lines: seq<Line>, request: Option<Id>, now: int, lost: Error)
    requires Distinct(lines) && NoIssues(s.listings, s.verified, lines)
    requires Place(s, config, draft, lines, request, now, lost).Refused?
    ensures Place(s, config, draft, lines, request, now, lost) == Refused(CartPriceChanged)
  {
    ReserveAllIff(s.listings, s.verified, lines);
  }

  /** A cart is refused for being empty, then for its lines, then for its delivery, then for its price. */
  lemma CartAnswers(s: State, config: Config, draft: Draft, now: int, shown: seq<Line>)
    requires Unused(s.checkouts, draft.buyer, draft.key) && Lists(shown, CartOf(s, draft.buyer))
    ensures Answers(Checkouts.PlaceOrders(s, config, draft, now), CartRefusal(s, config, draft, shown))
  {
    hide Place, QuotedTotal, HasKey, Unused, NoIssues;
    UnusedIsNew(s.checkouts, draft.buyer, draft.key);
    var cart := CartOf(s, draft.buyer);
    var lines := SortedLines(cart);
    assert |shown| == |multiset(shown)| == |lines|;
    QuoteIsCharged(s, config, draft, now, shown);
    SortedDistinct(cart);
    QuotePermutes(config, s.listings, s.verified, shown, lines);
    OrderableIffNoIssues(s, cart);
    if NoIssues(s.listings, s.verified, lines) && Place(s, config, draft, lines, None, now, CartNeedsAttention).Refused? {
      PlaceSays(s, config, draft, lines, None, now, CartNeedsAttention);
    }
  }

  // ----- Sourcing requests -----

  ghost function ConfirmRefusal(s: State, config: Config, r: Id, draft: Draft, matching: set<Id>): Option<Error> {
    if r !in s.requests then Some(RequestNotFound)
    else if exists c :: Serves(s, c, r) then Some(RequestHasCheckout)
    else
      var row := s.requests[r];
      if row.allocations == map[] then Some(SelectionEmpty)
      else if Sum(row.allocations, (quantity: nat) => quantity) < row.requested then Some(SelectionTooSmall)
      else if exists l | l in row.allocations :: !OnOffer(s, Line(l, row.allocations[l]), matching) then
        Some(ListingNotEligible)
      else if !draft.deliverable then Some(InvalidDelivery)
      else if draft.expectedTotal != QuotedTotal(config, s.listings, s.verified, SortedLines(row.allocations)) then
        Some(CartPriceChanged)
      else None
  }

  lemma ServedIsLive(s: State, r: Id)
    ensures HasLive(s.checkouts, r) <==> exists c :: Serves(s, c, r)
  {
    if c :| c in s.checkouts && s.checkouts[c].request == Some(r) && Live(s.checkouts[c].status) {
      assert Serves(s, c, r);
    }
  }

  lemma OffersEligible(s: State, allocations: map<Id, nat>, matching: set<Id>)
    ensures (exists l | l in allocations :: !OnOffer(s, Line(l, allocations[l]), matching)) <==>
            (exists l | l in allocations :: !Sourcing.ListingEligible(s, l, allocations[l], matching))
  {
    forall l | l in allocations
      ensures OnOffer(s, Line(l, allocations[l]), matching) <==> Sourcing.ListingEligible(s, l, allocations[l], matching)
    {
    }
  }

  /** Confirming with a key not used yet is refused for the first of these that is in the way. */
  lemma ConfirmAnswers(s: State, config: Config, r: Id, draft: Draft, matching: set<Id>, now: int)
    requires r in s.requests ==> Unused(s.checkouts, s.requests[r].buyer, draft.key)
    ensures Answers(Checkouts.ConfirmRequest(s, config, r, draft, matching, now), ConfirmRefusal(s, config, r, draft, matching))
  {
    hide Place, QuotedTotal, HasKey, Unused, KeyOfOther, HasLive, OnOffer, Serves, Sourcing.ListingEligible, Sourcing.Sync;
    if r in s.requests {
      var row := s.requests[r];
      UnusedIsNew(s.checkouts, row.buyer, draft.key);
      var lines, mine := SortedLines(row.allocations), draft.(buyer := row.buyer);
      ServedIsLive(s, r);
      OffersEligible(s, row.allocations, matching);
      NoKeyOfOther(s.checkouts, row.buyer, draft.key, r);
      ConfirmIgnoresClosing(s, config, r, draft, matching, now);
      SortedDistinct(row.allocations);
      if (forall l | l in row.allocations :: Sourcing.ListingEligible(s, l, row.allocations[l], matching)) &&
         Place(s, config, mine, lines, Some(r), now, ListingNotEligible).Refused? {
        EligibleHasNoIssues(s, row.allocations, matching);
        PlaceSays(s, config, mine, lines, Some(r), now, ListingNotEligible);
      }
    }
  }

  predicate AllOver(statuses: set<OrderStatus>) {
    statuses <= {Fulfilled, OrderStatus.Cancelled}
  }

  ghost function CloseRefusal(s: State, r: Id): Option<Error> {
    if r !in s.requests then Some(RequestNotFound)
    else if s.requests[r].closed then Some(RequestFinished)
    else if exists c :: Serves(s, c, r) && s.checkouts[c].status.Paid? && AllOver(Statuses(s, c)) then Some(RequestFinished)
    else if exists c :: Serves(s, c, r) && s.checkouts[c].status.Paid? then Some(RequestHasOpenOrders)
    else None
  }

  // An order delivered or called off of those a request still waits for is not the last to be called off.
  lemma HasDelivery(s: State, r: Id, c: Id)
    requires r in s.requests && !s.requests[r].closed
    requires Statuses(s, c) == {OrderStatus.Cancelled} ==> s.requests[r].closed
    ensures Statuses(s, c) != {} && AllOver(Statuses(s, c)) ==> Fulfilled in Statuses(s, c)
  {
    hide Statuses;
    var statuses := Statuses(s, c);
    if AllOver(statuses) && Fulfilled !in statuses {
      assert statuses == {} || statuses == {OrderStatus.Cancelled};
    }
  }

  /** Closing is refused of a request that is closed or all delivered, and of one with orders still to deliver. */
  lemma CloseAnswers(config: Config, s: State, r: Id)
    requires Reachable(config, s)
    ensures Answers(Checkouts.CloseRequest(s, r), CloseRefusal(s, r))
  {
    hide Reachable, Inv, Sourcing.Sync, Release, Serves, Statuses;
    if r in s.requests {
      CloseIff(config, s, r);
      if c :| Serves(s, c, r) {
        ServesLive(s, c, r);
        SoleServes(config, s, r, c);
        if s.checkouts[c].status.Paid? {
          PaidStatus(config, s, r, c);
          ReachableOk(config, s);
          HasOrder(s, c);
          if !s.requests[r].closed {
            HasDelivery(s, r, c);
          }
        } else {
          AwaitingStatus(config, s, r, c);
        }
      } else {
        NobodyServes(s, r);
        UnservedStatus(config, s, r);
      }
    }
  }

  // ----- Selecting -----

  /** The first line that fails decides, whatever comes after it. */
  lemma {:induction false} LinesAnswer(s: State, lines: seq<Line>, matching: set<Id>, i: nat)
    requires i < |lines| && Distinct(lines[..i]) && forall j | 0 <= j < i :: OnOffer(s, lines[j], matching)
    requires (exists j | 0 <= j < i :: lines[j].listing == lines[i].listing) || !OnOffer(s, lines[i], matching)
    ensures Checked(s, lines, matching) ==
            Refused(if exists j | 0 <= j < i :: lines[j].listing == lines[i].listing then AlreadySelected
                    else if lines[i].listing !in s.listings then ProduceNotFound
                    else ListingNotEligible)
  {
    var n := |lines| - 1;
    var front := lines[..n];
    assert front[..i] == lines[..i];
    if i < n {
      LinesAnswer(s, front, matching, i);
    } else {
      OnOfferIsEligible(s, front, matching);
      RequestProofs.CheckedIff(s, front, matching);
      var seen := Checked(s, front, matching).value;
      assert lines[n].listing in seen <==> exists j | 0 <= j < n :: front[j].listing == lines[n].listing;
    }
  }

  function SaveRefusal(s: State, r: Id): Option<Error> {
    if r !in s.requests then Some(RequestNotFound)
    else if s.requests[r].agent.None? then Some(AgentMissing)
    else if !Editable(s, r) then Some(MatchingClosed)
    else None
  }

  /** A selection is looked at only for an agent and while it can still change. */
  lemma SaveAnswers(config: Config, s: State, r: Id, lines: seq<Line>, matching: set<Id>)
    requires Reachable(config, s)
    ensures match SaveRefusal(s, r)
            case Some(error) => Checkouts.SaveAllocations(s, r, lines, matching) == Refused(error)
            case None => Checked(s, lines, matching).Refused? ==>
                           Checkouts.SaveAllocations(s, r, lines, matching) == Refused(Checked(s, lines, matching).error)
  {
    hide Reachable, Sourcing.Sync, Editable, Checked;
    if r in s.requests {
      OpenIffEditable(config, s, r);
    }
  }

  // ----- Paying -----

  function AttemptRefusal(s: State, c: Id, buyer: Id, currency: Currency, rate: Option<nat>, now: int): Option<Error> {
    if c !in s.checkouts || s.checkouts[c].buyer != buyer then Some(CheckoutNotFound)
    else if !(s.checkouts[c].status.AwaitingPayment? && s.checkouts[c].expiresAt > now) then Some(CheckoutNotPayable)
    else if currency.Usd? && (rate == None || rate == Some(0)) then Some(FxRateStale)
    else None
  }

  /** A new attempt is refused for its checkout before its rate; a repeated one is never refused. */
  lemma AttemptAnswers(s: State, c: Id, buyer: Id, key: Id, currency: Currency, rate: Option<nat>, now: int)
    ensures var answer := Payments.Initiate(s, c, buyer, key, currency, rate, now);
            if c in s.checkouts && s.checkouts[c].buyer == buyer &&
               exists p | p in s.payments :: s.payments[p].checkout == c && s.payments[p].key == key
            then answer == Ok(s)
            else Answers(answer, AttemptRefusal(s, c, buyer, currency, rate, now))
  {
  }

  /** Only its buyer can cancel a checkout, and only while it waits to be paid. */
  lemma CancelAnswers(s: State, c: Id, buyer: Id)
    ensures Answers(Checkouts.CancelCheckout(s, c, buyer),
                    if c !in s.checkouts || s.checkouts[c].buyer != buyer then Some(CheckoutNotFound)
                    else if s.checkouts[c].status != CheckoutStatus.AwaitingPayment then Some(CheckoutNotCancellable)
                    else None)
  {
    hide Sourcing.Sync, Release;
  }

  // ----- Refunding -----

  ghost function WholeRefusal(s: State, p: Id): Option<Error> {
    if p !in s.payments then Some(PaymentNotFound)
    else if !s.payments[p].status.Succeeded? && !s.payments[p].status.Orphaned? then Some(PaymentNotRefundable)
    else if s.payments[p].status.Succeeded? &&
            exists i | i in s.items :: s.items[i].Live() && s.items[i].order in s.orders &&
                                       s.orders[s.items[i].order].checkout == Some(s.payments[p].checkout) then
      Some(OrdersPaidOut)
    else if s.payments[p].charged <= Sum(s.refunds, LiveOn(p)) then Some(NothingToRefund)
    else None
  }

  /** A refund of the whole is refused for its payment, then for a farmer being paid, then for want of money. */
  lemma WholeAnswers(s: State, p: Id)
    ensures Answers(RefundStep(s, p, None), WholeRefusal(s, p))
  {
    hide LiveOn;
  }

  function OrderRefundRefusal(s: State, p: Id, o: Id): Option<Error> {
    if p !in s.payments then Some(PaymentNotFound)
    else if !s.payments[p].status.Succeeded? then Some(PaymentNotRefundable)
    else if o !in s.orders || s.orders[o].checkout != Some(s.payments[p].checkout) || !s.orders[o].status.Cancelled? then
      Some(OrderNotRefundable)
    else if exists r | r in s.refunds :: s.refunds[r].payment == p && s.refunds[r].Live() && s.refunds[r].order == Some(o)
    then Some(OrderAlreadyRefunded)
    else None
  }

  /** While no refund of the whole is live, an order's refund is refused for its payment, then for the order. */
  lemma OrderRefundAnswers(config: Config, s: State, p: Id, o: Id)
    requires Reachable(config, s)
    requires p in s.payments ==> !Payouts.WholeRefund(s.payments, s.refunds, s.payments[p].checkout)
    ensures Answers(RefundStep(s, p, Some(o)), OrderRefundRefusal(s, p, o))
  {
    hide Reachable, Payouts.WholeRefund, OrderShare, Remaining;
    if p in s.payments && s.payments[p].status.Succeeded? {
      Solvency.OrderRefundsFit(config, s, p, o);
    }
  }

  // ----- Orders read before their transaction -----

  // Refused for what the session read, and otherwise only if the order has moved since.
  function StaleRefusal(s: State, session: Id, from: set<OrderStatus>, error: Error): Option<Error> {
    if session !in s.orderReads then Some(OrderNotFound)
    else
      var Read(o, seen) := s.orderReads[session];
      if seen.status !in from then Some(error)
      else if o !in s.orders || s.orders[o].status != seen.status then Some(OrderChanged)
      else None
  }

  function ReadyRefusal(s: State, session: Id, list: Id): Option<Error> {
    if session !in s.orderReads then Some(OrderNotFound)
    else
      var Read(o, seen) := s.orderReads[session];
      if !seen.status.Preparing? then Some(OrderNotPreparing)
      else if list !in s.orderReads || s.orderReads[list].id != o || s.orderReads[list].row.checklist.None? then Some(NotFound)
      else if !OrderMoves.AllTicked(s.orderReads[list].row.checklist) then Some(ChecklistIncomplete)
      else if o !in s.orders || !s.orders[o].status.Preparing? || !OrderMoves.AllTicked(s.orders[o].checklist) then
        Some(OrderChanged)
      else None
  }

  function CancelRefusal(s: State, session: Id, seller: bool): Option<Error> {
    if session in s.orderReads && s.orderReads[session].row.status.AwaitingPayment? then Some(OrderInCheckout)
    else
      StaleRefusal(s, session, {OrderStatus.Pending} + (if seller then {OrderStatus.Confirmed, Preparing} else {}),
                   OrderNotCancellable)
  }

  function RemoveRefusal(s: State, session: Id, buyer: Id): Option<Error> {
    if session in s.orderReads && s.orderReads[session].row.status.AwaitingPayment? then Some(OrderInCheckout)
    else if session in s.orderReads && s.orderReads[session].row.checkout.Some? then Some(OrderPaid)
    else if session in s.orderReads && s.orderReads[session].row.buyer != buyer then Some(OrderNotPending)
    else StaleRefusal(s, session, {OrderStatus.Pending}, OrderNotPending)
  }

  /** A step on an order is refused for what was read of it, and for having moved since only when that was in order. */
  lemma FarmerAnswers(s: State, session: Id, list: Id, ticks: Orders.Ticks)
    requires Inv(s)
    ensures Answers(Orders.Confirm(s, session), StaleRefusal(s, session, {OrderStatus.Pending}, OrderNotPending))
    ensures Answers(Orders.Prepare(s, session), StaleRefusal(s, session, {OrderStatus.Confirmed}, OrderNotConfirmed))
    ensures Answers(Orders.Tick(s, session, ticks), StaleRefusal(s, session, {Preparing}, OrderNotPreparing))
    ensures Answers(Orders.MarkReady(s, session, list), ReadyRefusal(s, session, list))
  {
    hide Inv, Orders.Moved, ReleaseStock, Restatused;
    if session in s.orderReads && s.orderReads[session].id in s.orders {
      OrderProofs.SeenFacts(s, session);
      OrderProofs.OrderFacts(s, s.orderReads[session].id);
    }
  }

  /** The same of withdrawing an order. */
  lemma WithdrawAnswers(s: State, session: Id, seller: bool)
    ensures Answers(Orders.Cancel(s, session, seller), CancelRefusal(s, session, seller))
  {
    hide Orders.Moved, ReleaseStock;
  }

  /** The same of deleting one. */
  lemma DeleteAnswers(s: State, session: Id, buyer: Id)
    ensures Answers(Orders.Remove(s, session, buyer), RemoveRefusal(s, session, buyer))
  {
    hide ReleaseStock;
  }

  // ----- Listings -----

  function EditRefusal(s: State, session: Id, actual: Option<nat>): Option<Error> {
    if session !in s.listingReads then Some(NotFound)
    else
      var Read(l, seen) := s.listingReads[session];
      var wanted := if actual.Some? then actual.value else seen.actual;
      if wanted < seen.actual - seen.floating then Some(StockReserved)
      else if l !in s.listings || s.listings[l].actual != seen.actual || s.listings[l].floating != seen.floating then
        Some(StockChanged)
      else None
  }

  /** An edit is refused for taking what orders hold, by the counters it read, before it is refused for their having moved. */
  lemma EditAnswers(s: State, session: Id, actual: Option<nat>, status: Option<ProduceStatus>, price: Option<nat>)
    ensures Answers(Stock.UpdateListing(s, session, actual, status, price), EditRefusal(s, session, actual))
  {
    hide DeriveStatus;
  }

  /** Removing a listing is refused for its status only to an admin, and to anybody for what still refers to it. */
  lemma RemovalAnswers(s: State, l: Id, byAdmin: bool)
    ensures Answers(Stock.RemoveListing(s, l, byAdmin),
                    if l !in s.listings then Some(ProduceNotFound)
                    else if byAdmin && s.listings[l].status != Disabled then Some(ProduceNotDisabled)
                    else if !ListingMoves.Unreferenced(s, l) then Some(ProduceHasOrders)
                    else None)
  {
  }

  // ----- Handovers -----

  function HandoverRefusal(s: State, o: Id, agent: Id, from: HandoverStatus, error: Error): Option<Error> {
    if o !in s.orders || s.orders[o].handover.None? || s.orders[o].handover.value.agent != Some(agent) then
      Some(HandoverNotFound)
    else if s.orders[o].handover.value.status != from then Some(error)
    else None
  }

  /** A handover is refused unless it is the agent's own and at the step before; the order never stands in the way. */
  lemma HandoverAnswers(s: State, o: Id, agent: Id)
    requires Inv(s)
    ensures Answers(Orders.VerifyHandover(s, o, agent),
                    HandoverRefusal(s, o, agent, HandoverStatus.Pending, HandoverNotPending))
    ensures Answers(Orders.CompleteHandover(s, o, agent), HandoverRefusal(s, o, agent, Verified, HandoverNotVerified))
  {
    hide Inv, Orders.Moved;
    if o in s.orders {
      OrderProofs.OrderFacts(s, o);
    }
  }
}
