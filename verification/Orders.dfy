/**
 * What happens to an order after it is paid for: the farmer confirms, prepares and marks it ready,
 * an agent verifies and hands it over, and it is delivered, unless somebody cancels it first.
 * The farmer's and the buyer's steps act on a row read before the transaction began.
 */
module Orders {
  import opened Rows
  import opened Stock
  import opened Sourcing

  function ReadOrder(s: State, session: Id, o: Id): Result<State> {
    if o !in s.orders then Refused(OrderNotFound)
    else Ok(s.(orderReads := s.orderReads[session := Read(o, s.orders[o])]))
  }

  predicate Unmoved(s: State, read: Read<Order>) {
    read.id in s.orders && s.orders[read.id].status == read.row.status
  }

  // Commits `row` over order `o` and rewrites the status of the request it belongs to.
  function Moved(s: State, o: Id, row: Order): State {
    Sync(s.(orders := s.orders[o := row]), RequestOf(s, row))
  }

  function Confirm(s: State, session: Id): Result<State> {
    if session !in s.orderReads then Refused(OrderNotFound)
    else
      var Read(o, seen) := s.orderReads[session];
      if !seen.status.Pending? then Refused(OrderNotPending)
      else if !Unmoved(s, s.orderReads[session]) || seen.listing !in s.listings then Refused(OrderChanged)
      else
        var row := s.listings[seen.listing];
        var taken := Restatused(row.(actual := row.actual - seen.quantity));
        Ok(Moved(s.(listings := s.listings[seen.listing := taken]), o, s.orders[o].(status := OrderStatus.Confirmed)))
  }

  function Prepare(s: State, session: Id): Result<State> {
    if session !in s.orderReads then Refused(OrderNotFound)
    else
      var Read(o, seen) := s.orderReads[session];
      if !seen.status.Confirmed? then Refused(OrderNotConfirmed)
      else if !Unmoved(s, s.orderReads[session]) then Refused(OrderChanged)
      else
        var row := s.orders[o].(status := Preparing, checklist := Some(Checklist(false, false, false, false)));
        Ok(Moved(s, o, row))
  }

  /** One request's say on each item; None is no say. */
  datatype Ticks = Ticks(harvested: Option<bool>, sorted: Option<bool>, packaged: Option<bool>,
                         readyForPickup: Option<bool>)

  function Ticked(list: Checklist, ticks: Ticks): Checklist {
    Checklist(if ticks.harvested.Some? then ticks.harvested.value else list.harvested,
              if ticks.sorted.Some? then ticks.sorted.value else list.sorted,
              if ticks.packaged.Some? then ticks.packaged.value else list.packaged,
              if ticks.readyForPickup.Some? then ticks.readyForPickup.value else list.readyForPickup)
  }

  function Tick(s: State, session: Id, ticks: Ticks): Result<State> {
    if session !in s.orderReads then Refused(OrderNotFound)
    else
      var Read(o, seen) := s.orderReads[session];
      if !seen.status.Preparing? then Refused(OrderNotPreparing)
      else if !Unmoved(s, s.orderReads[session]) || s.orders[o].checklist.None? then Refused(OrderChanged)
      else Ok(s.(orders := s.orders[o := s.orders[o].(checklist := Some(Ticked(s.orders[o].checklist.value, ticks)))]))
  }

  // The checklist session `list` read of the order session `session` read.
  function ListRead(s: State, session: Id, list: Id): Option<Checklist> {
    if session in s.orderReads && list in s.orderReads && s.orderReads[list].id == s.orderReads[session].id then
      s.orderReads[list].row.checklist
    else None
  }

  // The order and its checklist come from two reads, either of which may be stale; the guards look again.
  function MarkReady(s: State, session: Id, list: Id): Result<State> {
    if session !in s.orderReads then Refused(OrderNotFound)
    else
      var Read(o, seen) := s.orderReads[session];
      if !seen.status.Preparing? then Refused(OrderNotPreparing)
      else if ListRead(s, session, list).None? then Refused(NotFound)
      else if !ListRead(s, session, list).value.Complete() then Refused(ChecklistIncomplete)
      else if !Unmoved(s, s.orderReads[session]) || s.orders[o].checklist.None? ||
              !s.orders[o].checklist.value.Complete() then Refused(OrderChanged)
      else
        var handover := Handover(HandoverStatus.Pending, AgentOf(s.clusters, seen.farm));
        Ok(Moved(s, o, s.orders[o].(status := Ready, handover := Some(handover))))
  }

  function AgentOf(clusters: map<Id, Id>, farm: Id): Option<Id> {
    if farm in clusters then Some(clusters[farm]) else None
  }

  predicate MayCancel(status: OrderStatus, seller: bool) {
    status.Pending? || (seller && (status.Confirmed? || status.Preparing?))
  }

  function Cancel(s: State, session: Id, seller: bool): Result<State> {
    if session !in s.orderReads then Refused(OrderNotFound)
    else
      var Read(o, seen) := s.orderReads[session];
      if seen.status.AwaitingPayment? then Refused(OrderInCheckout)
      else if !MayCancel(seen.status, seller) then Refused(OrderNotCancellable)
      else if !Unmoved(s, s.orderReads[session]) then Refused(OrderChanged)
      else
        Ok(Moved(s.(listings := ReleaseStock(s.listings, seen)), o, s.orders[o].(status := OrderStatus.Cancelled)))
  }

  // An order with no checkout can be deleted by its buyer until the farmer accepts it.
  function Remove(s: State, session: Id, buyer: Id): Result<State> {
    if session !in s.orderReads then Refused(OrderNotFound)
    else
      var Read(o, seen) := s.orderReads[session];
      if seen.status.AwaitingPayment? then Refused(OrderInCheckout)
      else if seen.checkout.Some? then Refused(OrderPaid)
      else if seen.buyer != buyer || !seen.status.Pending? then Refused(OrderNotPending)
      else if !Unmoved(s, s.orderReads[session]) then Refused(OrderChanged)
      else Ok(s.(orders := s.orders - {o}, listings := ReleaseStock(s.listings, seen)))
  }

  // ----- The agent's handover -----

  predicate HandedTo(s: State, o: Id, agent: Id) {
    o in s.orders && s.orders[o].handover.Some? && s.orders[o].handover.value.agent == Some(agent)
  }

  function VerifyHandover(s: State, o: Id, agent: Id): Result<State> {
    if !HandedTo(s, o, agent) then Refused(HandoverNotFound)
    else if !s.orders[o].handover.value.status.Pending? then Refused(HandoverNotPending)
    else Ok(Moved(s, o, s.orders[o].(handover := Some(Handover(Verified, Some(agent))))))
  }

  function CompleteHandover(s: State, o: Id, agent: Id): Result<State> {
    if !HandedTo(s, o, agent) then Refused(HandoverNotFound)
    else if !s.orders[o].handover.value.status.Verified? then Refused(HandoverNotVerified)
    else if !s.orders[o].status.Ready? then Refused(OrderNotReady)
    else Ok(Moved(s, o, s.orders[o].(status := Shipped, handover := Some(Handover(HandedOver, Some(agent))))))
  }

  // Delivery is recorded outside this program; here it is a step of the environment.
  function Fulfil(s: State, o: Id, now: int): Result<State> {
    if o !in s.orders then Refused(OrderNotFound)
    else if !s.orders[o].status.Shipped? then Refused(OrderNotReady)
    else Ok(Moved(s, o, s.orders[o].(status := Fulfilled, fulfilledAt := Some(now))))
  }

  // ----- Farms entering and leaving clusters -----

  predicate Agentless(order: Order) {
    order.handover.Some? && order.handover.value.agent.None? && !order.handover.value.status.HandedOver?
  }

  // The farm joins a cluster, and its handovers that lacked an agent get that cluster's.
  function FarmApproved(s: State, farm: Id, agent: Id): State {
    s.(verified := s.verified + {farm},
       clusters := s.clusters[farm := agent],
       orders := map o | o in s.orders ::
         if s.orders[o].farm == farm && Agentless(s.orders[o]) then
           s.orders[o].(handover := Some(Handover(s.orders[o].handover.value.status, Some(agent))))
         else s.orders[o])
  }

  // `leaves`: whether the step that unverified the farm also removed it from its cluster.
  function FarmUnverified(s: State, farm: Id, leaves: bool): State {
    s.(verified := s.verified - {farm}, clusters := if leaves then s.clusters - {farm} else s.clusters)
  }
}
