/** What follows from the moves of an order for whole runs. */
module OrderLives {
  import opened Rows
  import Orders
  import opened Invariants
  import opened Runs
  import opened PaymentMoves
  import opened OrderMoves
  import opened Approval
  import OrderProofs

  /**
   * An order is called off exactly when its checkout is withdrawn or expires before it is paid, or when, read as
   * it stands, it is withdrawn by its buyer while nobody has accepted it or by its farmer before it is ready.
   */
  lemma CalledOffIff(config: Config, s: State, e: Event, o: Id)
    requires Reachable(config, s) && o in s.orders && !s.orders[o].status.Cancelled?
    ensures var t, was := After(config, s, e), s.orders[o];
            (o in t.orders && t.orders[o].status.Cancelled?) <==>
              || (was.status.AwaitingPayment? && was.checkout.Some? &&
                  (Withdraws(s, e, was.checkout.value) || Expires(s, e, was.checkout.value)))
              || (e.Order? && e.order.Cancel? && Current(s, e.order.session, o, was.status) &&
                  (was.status.Pending? || (e.order.seller && (was.status.Confirmed? || was.status.Preparing?))))
  {
    hide Reachable, Withdraws, Expires, After;
    EveryMove(config, s, e, o);
    if s.orders[o].checkout.Some? {
      PayOrEnd(s, e, s.orders[o].checkout.value);
    }
  }

  lemma PayOrEnd(s: State, e: Event, c: Id)
    ensures !(PaysFor(s, e, c) && (Withdraws(s, e, c) || Expires(s, e, c)))
    ensures e.Order? ==> !PaysFor(s, e, c) && !Withdraws(s, e, c) && !Expires(s, e, c)
  {
  }

  // ----- Delivered orders -----

  lemma NothingMoves(s: State, e: Event, o: Id)
    requires o in s.orders && s.orders[o].status.Fulfilled?
    requires s.orders[o].handover.Some? && s.orders[o].handover.value.status.HandedOver?
    ensures !Deletes(s, e, o) && OrderAfter(s, e, o) == s.orders[o]
  {
    hide Withdraws, Expires, PaysFor, TickedRow, AllTicked;
  }

  lemma FulfilledStays(config: Config, s: State, e: Event, o: Id)
    requires Reachable(config, s) && o in s.orders && s.orders[o].status.Fulfilled?
    ensures var t := After(config, s, e); o in t.orders && t.orders[o] == s.orders[o]
  {
    hide Reachable, Inv, After, OrderAfter, Deletes;
    ReachableOk(config, s);
    OrderProofs.OrderFacts(s, o);
    NothingMoves(s, e, o);
    EveryMove(config, s, e, o);
  }

  lemma {:induction false} ReachableRun(config: Config, s: State, events: seq<Event>)
    requires Reachable(config, s)
    ensures Reachable(config, Run(config, s, events))
  {
    hide Reachable, After;
    if events != [] {
      var n := |events| - 1;
      ReachableRun(config, s, events[..n]);
      ReachableNext(config, Run(config, s, events[..n]), events[n]);
    }
  }

  /** A delivered order never changes again, the time of its delivery included. */
  lemma {:induction false} FulfilledIsFinal(config: Config, s: State, events: seq<Event>, o: Id)
    requires Reachable(config, s) && o in s.orders && s.orders[o].status.Fulfilled?
    ensures var t := Run(config, s, events); o in t.orders && t.orders[o] == s.orders[o]
  {
    hide Reachable, After;
    if events != [] {
      var n := |events| - 1;
      FulfilledIsFinal(config, s, events[..n], o);
      ReachableRun(config, s, events[..n]);
      FulfilledStays(config, Run(config, s, events[..n]), events[n], o);
    }
  }

  /**
   * Whatever happens after an order was delivered at `delivered`, an approval that pays its farmer for it comes at
   * least the holding period later.
   */
  lemma PaidAfterHolding(config: Config, s: State, o: Id, delivered: int, events: seq<Event>, e: Event)
    requires Reachable(config, s) && Orders.Fulfil(s, o, delivered).Ok?
    ensures var t := Run(config, After(config, s, Event.Order(Fulfil(o, delivered))), events);
            GetsPaid(t, After(config, t, e), o) ==>
              e.Money? && e.money.Approve? && e.money.now >= delivered + config.payoutHoldMs
  {
    hide Reachable, Run, GetsPaid, Orders.Moved, OrderAfter;
    var fulfil := Event.Order(Fulfil(o, delivered));
    var u := After(config, s, fulfil);
    var t := Run(config, u, events);
    assert o in s.orders && s.orders[o].status.Shipped?;
    Delivered(config, s, o, delivered);
    ReachableNext(config, s, fulfil);
    FulfilledIsFinal(config, u, events, o);
    ReachableRun(config, u, events);
    OnlyApprovalPays(config, t, e, o);
  }

  lemma Delivered(config: Config, s: State, o: Id, delivered: int)
    requires Reachable(config, s) && o in s.orders && s.orders[o].status.Shipped?
    ensures var u := After(config, s, Event.Order(Fulfil(o, delivered)));
            o in u.orders && u.orders[o].status.Fulfilled? && u.orders[o].fulfilledAt == Some(delivered)
  {
    hide Reachable, After;
    EveryMove(config, s, Event.Order(Fulfil(o, delivered)), o);
  }

  // ----- Verified handovers -----

  /** The agent has verified the order and can still hand it over, or has done so. */
  predicate InHand(order: Order, agent: Id) {
    || (order.status.Ready? && HandledBy(order, agent, Verified))
    || ((order.status.Shipped? || order.status.Fulfilled?) && HandledBy(order, agent, HandedOver))
  }

  lemma InHandStays(config: Config, s: State, e: Event, o: Id, agent: Id)
    requires Reachable(config, s) && o in s.orders && InHand(s.orders[o], agent)
    ensures var t := After(config, s, e); o in t.orders && InHand(t.orders[o], agent)
  {
    hide Reachable, After, Withdraws, Expires, PaysFor;
    EveryMove(config, s, e, o);
  }

  lemma {:induction false} InHandForGood(config: Config, s: State, events: seq<Event>, o: Id, agent: Id)
    requires Reachable(config, s) && o in s.orders && InHand(s.orders[o], agent)
    ensures var t := Run(config, s, events); o in t.orders && InHand(t.orders[o], agent)
  {
    hide Reachable, After, InHand;
    if events != [] {
      var n := |events| - 1;
      InHandForGood(config, s, events[..n], o, agent);
      ReachableRun(config, s, events[..n]);
      InHandStays(config, Run(config, s, events[..n]), events[n], o, agent);
    }
  }

  /**
   * An agent can verify exactly the orders waiting for that agent. From then on, whatever happens in between, the
   * order stays in that agent's hands, and until it is handed over the agent can hand it over, which ships it.
   */
  lemma VerifiedCanComplete(config: Config, s: State, o: Id, agent: Id, events: seq<Event>)
    requires Reachable(config, s)
    ensures Orders.VerifyHandover(s, o, agent).Ok? <==> o in s.orders && HandledBy(s.orders[o], agent, HandoverStatus.Pending)
    ensures Orders.VerifyHandover(s, o, agent).Ok? ==>
              var t := Run(config, After(config, s, Event.Order(VerifyHandover(o, agent))), events);
              && o in t.orders && InHand(t.orders[o], agent)
              && var u := After(config, t, Event.Order(CompleteHandover(o, agent)));
              o in u.orders && (u.orders[o].status.Shipped? || u.orders[o].status.Fulfilled?)
  {
    hide Reachable, Inv, Run, After, Orders.Moved;
    if Orders.VerifyHandover(s, o, agent).Ok? {
      var verify := Event.Order(VerifyHandover(o, agent));
      var v := After(config, s, verify);
      ReachableOk(config, s);
      OrderProofs.OrderFacts(s, o);
      EveryMove(config, s, verify, o);
      ReachableNext(config, s, verify);
      InHandForGood(config, v, events, o, agent);
      var t := Run(config, v, events);
      ReachableRun(config, v, events);
      EveryMove(config, t, Event.Order(CompleteHandover(o, agent)), o);
    }
  }
}
