# A verified model of the marketplace's stock-and-money ledger

Farmers list produce, buyers place orders and pay for them, admins refund buyers and pay farmers, agents
verify farms and hand orders over. This project models the services that move stock and money as one
state machine over the rows they read and write, and proves what holds of it in every run.

## How the project is laid out

- `Rows` holds the rows and the state. Amounts are whole minor units (kobo, or cents for a dollar charge),
  exchange rates are millionths, percentages are basis points, times are milliseconds.
- `Stock`, `Orders`, `Sourcing`, `Checkouts`, `Payments`, `Refunds` and `Payouts` give each transaction as a
  step: a function from the state before it to the state it commits, or to the reason it is refused. Steps
  that act on a row read before their transaction began take that row from `orderReads` or `listingReads`,
  where it may have gone stale.
- `Services` is the same transactions as the program runs them: a class whose fields are the tables, one
  method a service method, early refusals, updates in place and loops. Every method is proved to leave the
  database as its step says and to keep it valid. The table below lists those that loop, roll back or are
  built from others; the rest follow their steps in the same way, and what the steps keep is listed instead.
- `Invariants` says what holds of the ledger, `Evolution` how rows may change, and the `...Proofs` modules
  show that each step keeps both. `Runs` puts every step into one type of events and lifts the result to
  every reachable state and every run.
- What each row becomes under every event is in the `...Moves` modules, `NewRows`, `Standing`,
  `RequestStatus`, `Placement`, `Approval` and `Transfers`, and what a refused call says in `Refusals`. They are stated over the rows before and after an event and what its caller
  passed, not through the conditions and formulas of the steps, so they say what the steps are for.
- What follows over runs is in `Conservation`, `Staleness`, `Undoing`, `Preparation`, `OrderLives`,
  `PaymentSafety`, `Replays`, `Solvency`, `Settlement`, `SourcingSafety`, `Quote`, `Gaining` and `Money`.
  `Witnesses` holds two runs that show where a natural reading of the program goes further than the program does.
- `Interleaving` and `Bystanders` break refunds and payout approvals into the lock, read and commit steps
  they are made of, and let them interleave with each other and with everything else. `Progress` shows
  that such processes always finish, and `Deadlock` the same of every kind of call whose locks are known when
  it starts.
- `Cart` is the merge of a device cart. `PickAgent`, `Rounds`, `RoundProofs`, `RoundMoves`,
  `VerificationDesk` and `Comeback` are the verification rounds of farms, a smaller state machine of their own.
- `Sums`, `Ids`, `Loops` and `Frames` are the supporting theory: sums over tables, ids in ascending order,
  what a loop has done part way through, and which tables an event may write.

## What a reader should know

- One database transaction is one step, except in `Interleaving`, where refunds and approvals take many.
  Closing a request and confirming an order are atomic here, although the program finds the checkout to
  close, and the listing's quantities, before it locks them.
- `supplied` on a listing is a history variable: the quantity first listed plus the farmer's later changes.
- `FULFILLED` is recorded outside the code modelled; `Orders.Fulfil` is that step of the environment.
- A run may start from a ledger whose orders have no checkout (`Runs.Legacy`); an empty database is one case.
- Ids come from one counter, so a new row never reuses an id. Addresses and delivery dates are one flag, and
  the names, units and clusters that make a listing match a request are the set `matching`.

Three results are about behaviour that a reader of the program's comments might not expect:

- The comment at `src/produce/produce.service.ts:184` says a disabled listing stays disabled under a
  farmer's edit. It does not when the edit read the listing before it was disabled, because the write is
  guarded on the two quantities only. `Witnesses.StaleEditReopens` is such a run, and
  `Conservation.OnlyStaleEditsReopen` says exactly which steps do it.
- Confirming a selection does not look at whether the request has been closed, so a closed request can gain
  a checkout (`Witnesses.ClosedRequestGains`). `Gaining.OnlyConfirmingGains` says exactly which events give
  a request a checkout. The request stays CLOSED throughout.
- The description of suspending a farmer at `src/farm/admin-farmer.controller.ts:27` says that a later
  approved verification sets the farm back to VERIFIED. An approval needs a round, and a farm suspended
  while verified has none: after the run in `Comeback.SuspendedForGood` nothing ever verifies the farm
  again. `Comeback.ComesBackIff` says exactly which suspended farms can come back: those with a round open,
  and those that an edit under way read before the suspension, as in `Comeback.StaleEditBringsBack`.

## Model

| member | source | states |
|---|---|---|
| Money.CeilDiv | src/common/money.ts:17-23 | rounding up lands on the first multiple not below the amount |
| Money.PercentOf | src/common/money.ts:10-15 | the fee is the nearest minor unit to the percentage, halves up |
| Money.PercentOfIsDecimal | src/common/money.ts:10-15 | the integer fee equals the program's decimal expression |
| Money.NgnToUsdIsDecimal | src/common/money.ts:18-23 | the integer dollar charge equals the program's decimal expression |
| Money.OrderShareIsDecimal | src/payment/refund.service.ts:269-275 | the integer share of one order equals the program's decimal expression, rounded down once at the end |
| Money.EffectiveRateIsDecimal | src/fx/fx.service.ts:33-38 | the integer rate equals the program's decimal expression |
| Money.DollarChargeIsLeast | src/common/money.ts:17-23 | a cent amount covers the naira total at the rate exactly when it is at least the charge |
| Money.DollarChargeCoversTotal | src/fx/fx.service.ts:33-38 | the rate never exceeds market less margin, and the dollars charged still cover the total at the market rate with the margin kept aside |
| Money.MinorUnitsExact | src/common/money.ts:5-8 | conversion to minor units loses nothing on two-decimal amounts, so comparing minor units compares money |
| Money.OrderShareBound | src/common/money.ts:25-32 | a share scaled back is never more than the order's price plus its part of the fee |
| Services.Database.SyncProduceStatus | src/order/utils/reservation.ts:159-168 | the stored listing status afterwards is the one its quantities derive |
| Services.Database.TryReserveProduce | src/order/utils/reservation.ts:53-76 | reserves exactly when the listing can be ordered from, and otherwise changes nothing |
| Services.Database.ReleaseProduce | src/order/utils/reservation.ts:147-157 | each counter grows by what an order in that status holds of it, and the listing's status follows |
| Services.Database.UpdateListing | src/produce/produce.service.ts:166-228 | follows the optimistic edit: computed from the row read, written only if both counters are as read |
| ListingProofs.UpdateListingKeeps | src/produce/produce.service.ts:195-206 | an edit from a stale row still keeps the whole ledger in order |
| ListingProofs.RemoveListingKeeps | src/produce/produce.service.ts:243-254 | removing a listing no order or selection refers to keeps the ledger in order |
| Services.Database.SyncSourcingRequest | src/sourcing-request/utils/sync-sourcing-request.ts:18-71 | rewrites one request's status and closing from its other rows and touches nothing else; what each status then says of those rows is in `RequestStatus` |
| Services.Database.CompleteHandover | src/handover/handover.service.ts:118-162 | order and handover move together or the handover is rolled back |
| Services.Database.ReserveLines | src/cart/checkout.service.ts:108-123 | the loop reserves every line or reports that one could not be |
| Services.Database.CreateCheckout | src/cart/utils/place-checkout.ts:87-129 | refuses any expected total but the lines' own, and otherwise places one unpaid order a line; `Placement.PlacementMakes` says what is in each row |
| Services.Database.Place | src/cart/checkout.service.ts:108-134 | all or nothing: whatever stops a placement rolls its reservations back |
| Services.Database.PlaceOrders | src/cart/checkout.service.ts:68-138 | follows the cart checkout step, replay included |
| Services.Database.ReleaseOrders | src/payment/utils/release-checkout.ts:21-30 | the loop gives every listing back all that the checkout's unpaid orders held on it |
| Services.Database.ReleaseCheckout | src/payment/utils/release-checkout.ts:15-44 | stock back, orders cancelled, payments in flight abandoned, checkout ended |
| Services.Database.ExpireOverdue | src/payment/checkout-expiry.service.ts:27-52 | the sweep is the expiries one after another, and the count is how many were still due |
| Loops.SweepExpires | src/payment/checkout-expiry.service.ts:37-51 | a sweep expires exactly the listed checkouts that were overdue and leaves every other checkout alone |
| Loops.CountIsDue | src/payment/checkout-expiry.service.ts:37-51 | the count returned is the number of scanned checkouts that were overdue |
| Services.Database.OrphanPayment | src/payment/refund.service.ts:123-132 | afterwards the payment is orphaned, exactly one automatic refund returns its whole charge, nothing of it is left to refund, and no other payment or balance has moved |
| Services.Database.ApplyVerifiedCharge | src/payment/payment.service.ts:185-296 | follows the charge step through settled, failed, mismatched and matching charges, and keeps the ledger in order whichever it is |
| Services.Database.RemainingOf | src/payment/refund.service.ts:85-91 | the loop computes the charge less the live refunds |
| Services.Database.RefundPayment | src/payment/refund.service.ts:45-121 | follows the refund step with its refusals in the program's order |
| Services.Database.TotalOf | src/payout/payout.service.ts:134-137 | the loop computes the sum of the orders due |
| Services.Database.Approve | src/payout/payout.service.ts:100-160 | follows the approval of a batch; those skipped are exactly the farmers to whom nothing was due beforehand; `Approval.OnlyApprovalPays` says what is due |
| Loops.DueUntouched | src/payout/payout.service.ts:108-153 | what is due to a farmer does not depend on who else is in the batch |
| Services.Database.CheckedItems | src/sourcing-request/admin-sourcing-request.service.ts:637-680 | the loop answers as the lines demand in order: the first that repeats, is missing or is not eligible refuses the selection for that reason |
| RequestProofs.CheckedIff | src/sourcing-request/admin-sourcing-request.service.ts:643-680 | a selection is accepted if and only if no listing repeats and every line is eligible, and then holds exactly the lines' quantities |
| Services.Database.SaveAllocations | src/sourcing-request/admin-sourcing-request.service.ts:345-412 | the lines replace the selection, or a refusal leaves it as it was |
| Services.Database.ConfirmRequest | src/sourcing-request/admin-sourcing-request.service.ts:414-532 | follows the confirm step, replay and key conflicts included |
| Services.Database.CloseRequest | src/sourcing-request/admin-sourcing-request.service.ts:567-624 | follows the close step, releasing the one checkout that was waiting |
| OrderProofs.ConfirmKeeps | src/order/order.service.ts:201-226 | confirming keeps the whole ledger in order though it never checks `actual` |
| OrderProofs.CancelKeeps | src/order/order.service.ts:380-389 | cancelling gives back exactly what the order held in each counter |
| OrderProofs.RemoveKeeps | src/order/order.service.ts:481-487 | deleting a pending legacy order keeps stock conserved |
| OrderProofs.MarkReadyKeeps | src/order/order.service.ts:331-350 | a ready order has an open handover and a complete checklist |
| OrderProofs.FarmApprovedKeeps | src/verification/services/verification.service.ts:397-419 | approving a farm leaves none of its open handovers without an agent |
| OrderProofs.FulfilKeeps | src/order/order.service.ts:311-312 | delivery, wherever it is recorded, keeps the ledger in order |
| CheckoutProofs.PlaceKeeps | src/cart/utils/place-checkout.ts:87-129 | placing keeps everything in order but the stored status of the request it was placed for |
| CheckoutProofs.ReleaseKeeps | src/payment/utils/release-checkout.ts:15-44 | releasing keeps everything in order but its request's stored status |
| CheckoutProofs.SortedLinesAre | src/cart/checkout.service.ts:80-86 | lines are reserved in strictly ascending listing order |
| StockProofs.PlaceKeepsStock | src/order/utils/reservation.ts:46-76 | reserving every line and adding its unpaid order keeps stock conserved |
| StockProofs.ReleaseKeepsStock | src/payment/utils/release-checkout.ts:21-34 | a release keeps stock conserved on every listing |
| SourcingProofs.Commits | src/sourcing-request/utils/sync-sourcing-request.ts:14-71 | rewriting one request's status last is enough to leave every stored status derived and every request only moved on |
| SourcingProofs.RequestAdvances | src/sourcing-request/utils/sourcing-rules.ts:79-125 | however its rows evolve, the status derived for a request only moves forward |
| RequestProofs.CloseRequestKeeps | src/sourcing-request/admin-sourcing-request.service.ts:586-605 | closing keeps the ledger in order, whether or not a checkout was waiting |
| PaymentProofs.OrphanKeeps | src/payment/payment.service.ts:226-243 | orphaning keeps every balance within its charge and leaves every payout possible |
| PaymentProofs.OrphanBalance | src/payment/payment.service.ts:226-243 | orphaning uses up the payment's whole balance and moves no other |
| PaymentProofs.PaidKeeps | src/payment/payment.service.ts:244-263 | paying keeps everything in order but the request's stored status |
| RefundProofs.NewRefundKeeps | src/payment/refund.service.ts:75-115 | a refund within the balance, of an order not refunded yet or of a checkout nobody is paid for, keeps the ledger in order |
| PayoutProofs.PaidOutKeeps | src/payout/payout.service.ts:115-152 | a payout of delivered, unpaid and unrefunded orders keeps the ledger in order |
| PayoutProofs.NewItemsSum | src/payout/payout.service.ts:134-148 | a payout's items add up to the orders due, and no other payout's sum moves |
| Evolution.EvolvesTransitive | src/payment/payment.service.ts:41-48 | forward moves of every row compose over any number of steps |
| Runs.StepKeeps | src/order/order.service.ts:98-491 | every event of the marketplace keeps the whole invariant and moves rows only forward |
| Runs.RunKeeps | src/payment/payment.service.ts:185-296 | so does every sequence of events, in any order and with repeats |
| Runs.ReachableOk | src/order/utils/reservation.ts:27-168 | the ledger is in order in every reachable state |
| Conservation.StockConserved | src/order/utils/reservation.ts:137-157 | in every run the counters differ by what unconfirmed orders hold, actual plus what confirmed orders took is what was supplied, and neither is ever negative |
| Conservation.StatusTracksStock | src/produce/utils/produce-status.ts:3-22 | in every run a published listing has stock left and a sold-out one has none |
| Conservation.ActualTestRedundant | src/produce/utils/produce-status.ts:19-21 | in every reachable state testing the floating quantity alone gives the same status |
| Conservation.OnlyStaleEditsReopen | src/produce/produce.service.ts:184-205 | a disabled listing leaves DISABLED if and only if the step is an edit of a row read before the disable whose counters still match |
| Staleness.StaleConfirmHarmless | src/order/order.service.ts:201-226 | confirming on a stale row, if it commits, commits what it would have on the current row |
| Staleness.StaleCancelHarmless | src/order/order.service.ts:367-389 | the same of cancelling |
| Staleness.StaleMarkReadyHarmless | src/order/order.service.ts:313-350 | marking ready on a stale order and a stale checklist, read apart, if it commits, commits what one fresh read of both would |
| Staleness.StaleRemoveHarmless | src/order/order.service.ts:464-487 | the same of deleting a legacy order |
| Staleness.StaleEditCounters | src/produce/produce.service.ts:175-206 | a committed edit from a stale row sets everything but the status as the same edit of the current row would |
| Witnesses.StaleEditReopens | src/produce/produce.service.ts:184-205 | a reachable disabled listing that one farmer's edit publishes again |
| Witnesses.ClosedRequestGains | src/sourcing-request/admin-sourcing-request.service.ts:440-456 | a reachable closed request that gains a checkout and stays closed |
| Quote.IssueIsRefusal | src/cart/utils/cart-issue.ts:12-25 | the cart's check finds no issue exactly when the reservation's condition holds |
| Quote.ReserveAllIff | src/cart/checkout.service.ts:93-123 | the reserving loop succeeds on every line exactly when no line shows an issue |
| Quote.CartTotalPermutes | src/cart/formatters/cart.formatter.ts:73-89 | the cart's total does not depend on the order of its lines |
| Quote.QuoteIsCharged | src/cart/checkout.service.ts:93-134 | checkout with a fresh key goes through if and only if the cart is not empty, shows no issue, can be delivered and was quoted that total, and it charges exactly the quote |
| Quote.BuyNowIff | src/order/order.service.ts:98-132 | buying directly with a fresh key goes through if and only if delivery is possible, the listing is on sale with enough left and the total expected is its quote, and otherwise says which of these failed first |
| Refusals.CartAnswers | src/cart/checkout.service.ts:88-134 | a cart is refused for being empty, then for its lines, then for its delivery, then for its price |
| Quote.ConfirmIgnoresClosing | src/sourcing-request/admin-sourcing-request.service.ts:440-513 | confirming with a fresh key goes through if and only if no checkout of the request is live and the selection is ready, and then the request has a live checkout of the total quoted |
| Gaining.OnlyConfirmingGains | src/sourcing-request/admin-sourcing-request.service.ts:431-513 | of all events, a request without a live checkout gains one if and only if the event confirms its ready, rightly quoted selection with a key its buyer has not used; a closed request stays closed throughout |
| Placement.PlacementMakes | src/cart/utils/place-checkout.ts:87-129 | a placement with a fresh key, whichever of the three ways, makes one checkout and one order a line from the listings as they were before the call: the goods at their prices, the configured delivery fee, the percentage of the goods to the nearest kobo, their sum as total, the hold as expiry; each order with its listing's farm and farmer |
| Placement.FeesAreConfigured | src/cart/utils/place-checkout.ts:97-118 | in every run each checkout's delivery fee is the configured one and its service fee the configured percentage of its goods |
| Placement.NairaRefundIs | src/payment/refund.service.ts:248-276 | refunding a cancelled order paid in naira gives back its price and the price's part of the configured percentage, and nothing of the delivery fee |
| Placement.OrderRefundIs | src/payment/refund.service.ts:269-276 | refunding an order, in either currency, gives back the greatest whole number of minor units within its price and fee share's part of the charge |
| RequestStatus.UnservedStatus | src/sourcing-request/utils/sourcing-rules.ts:115-125 | with no checkout unpaid or paid, a request is CLOSED, FINDING_SUPPLY, IN_REVIEW or NEW each if and only if closing, selection and agent say so |
| RequestStatus.AwaitingStatus | src/sourcing-request/utils/sourcing-rules.ts:115-117 | while its checkout awaits payment a request is AWAITING_BUYER, or CLOSED if it was closed |
| RequestStatus.PaidStatus | src/sourcing-request/utils/sourcing-rules.ts:79-114 | once its checkout is paid, a request is CLOSED, COMPLETED, FULFILMENT or CONFIRMED each if and only if the statuses of the checkout's orders say so |
| RequestStatus.AssignIff | src/sourcing-request/admin-sourcing-request.service.ts:282-316 | an agent can be assigned if and only if the request is not closed, no checkout of it is unpaid or paid, and the agent suits |
| RequestStatus.SaveIff | src/sourcing-request/admin-sourcing-request.service.ts:345-412 | a selection can be saved if and only if the same holds, an agent is assigned, no listing repeats and every line is on offer, and then it is exactly those lines |
| RequestStatus.CloseIff | src/sourcing-request/admin-sourcing-request.service.ts:567-605 | a request can be closed if and only if it is not closed yet and no checkout of it is paid |
| RequestStatus.NoEditsWhileAwaiting | src/sourcing-request/admin-sourcing-request.service.ts:287-291 | while a checkout of the request awaits payment neither its agent nor its selection can be changed |
| RequestMoves.EveryMove | src/sourcing-request/utils/sync-sourcing-request.ts:14-71 | under every event a request's agent, selection and closing change exactly when an admin may change them, except that it also closes exactly when all orders of its paid checkout have been cancelled |
| NewRows.NewRequest | src/sourcing-request/sourcing-request.service.ts:32-43 | of all events only a buyer's asking makes a request: for that quantity, NEW, with no agent and nothing selected |
| Refusals.ConfirmAnswers | src/sourcing-request/admin-sourcing-request.service.ts:440-513 | confirming with a fresh key is refused for the first thing in its way and goes through when there is none |
| Refusals.CloseAnswers | src/sourcing-request/admin-sourcing-request.service.ts:567-585 | closing is refused as finished if the request is closed or all its paid orders are done with, and as having open orders if any are not |
| Refusals.LinesAnswer | src/sourcing-request/admin-sourcing-request.service.ts:643-680 | the first line that repeats a listing, names a missing one or is not on offer decides why a selection is refused, whatever comes after it |
| Refusals.SaveAnswers | src/sourcing-request/admin-sourcing-request.service.ts:345-380 | lines are looked at only once there is an agent and while neither closing nor a checkout has ended the matching |
| PaymentSafety.PaidOnce | src/payment/payment.service.ts:244-256 | in every run a checkout is PAID exactly when one payment on it succeeded, of its total, and never two |
| PaymentSafety.OnePending | src/payment/payment.service.ts:100-114 | at most one payment of a checkout is in flight, and none once it expired or was cancelled |
| PaymentSafety.EndsAreFinal | src/payment/payment.service.ts:204-207 | ended checkouts and settled payments never change again |
| PaymentSafety.OrdersFollowCheckout | src/order/order.service.ts:496-507 | an order is unpaid exactly while its checkout is, and cancelled if the checkout ended unpaid |
| PaymentSafety.ReleaseGivesBack | src/payment/utils/release-checkout.ts:21-34 | ending an unpaid checkout returns to every listing exactly the quantity of its orders there |
| PaymentSafety.FateOfCharge | src/payment/payment.service.ts:204-283 | a payment whose charge is ever reported successful is from then on SUCCEEDED if its checkout was waiting for exactly that money, and otherwise ORPHANED with one automatic refund of the whole charge |
| PaymentSafety.AttemptCharges | src/payment/payment.service.ts:100-132 | a new attempt is the only one in flight on its checkout and charges the whole total: that many naira, or the least cents that cover it at the rate; `PaymentMoves.AttemptIff` says when one is made |
| PaymentMoves.CheckoutMoves | src/payment/payment.service.ts:204-263 | under every event a checkout becomes PAID exactly when a charge of its money is verified while it waits, CANCELLED exactly when its buyer or the closing of its request withdraws it while it waits, EXPIRED exactly when it is swept past its time while it waits, and changes in nothing else |
| PaymentMoves.AttemptIff | src/payment/payment.service.ts:68-115 | an attempt with a key new to the checkout goes through if and only if the checkout is the buyer's, awaits payment, has time left, and is charged in naira or at a usable rate; any other call makes none |
| PaymentMoves.AttemptOrExpiry | src/payment/checkout-expiry.service.ts:54-91 | at one moment a checkout can take a new attempt or expire, never both |
| PaymentMoves.PaymentStatusMoves | src/payment/payment.service.ts:185-296 | under every event a payment's status is what the report, the newer attempt or the end of its checkout makes it, and nothing else of it changes; a report that settles nothing leaves it alone |
| PaymentMoves.RefundMoves | src/payment/refund.service.ts:172-198 | a refund settles once, to what the provider reports, and no other event moves it |
| NewRows.NewPayment | src/payment/payment.service.ts:100-132 | of all events only an attempt that may start makes a payment |
| Refusals.AttemptAnswers | src/payment/payment.service.ts:76-115 | a new attempt is refused for its checkout first and its exchange rate second, and a repeated one never |
| Refusals.CancelAnswers | src/cart/checkout.service.ts:160-188 | a checkout is cancelled exactly by its buyer and while it waits to be paid |
| Refusals.WholeAnswers | src/payment/refund.service.ts:57-106 | a refund of the whole is refused for its payment's status, then for a farmer being paid, then for want of money |
| Refusals.OrderRefundAnswers | src/payment/refund.service.ts:248-268 | while no whole refund is live an order's refund is refused for its payment, then for not being cancelled, then for being refunded already, and for nothing else |
| Replays.RepeatsChangeNothing | src/cart/utils/place-checkout.ts:32-41 | repeating a placement, cancel, expiry, close, payment attempt, charge or settlement that went through changes nothing, whatever happened in between |
| Replays.OneCheckoutPerKey | src/cart/utils/place-checkout.ts:37-40 | a buyer has at most one checkout for a key across all three ways to place one |
| Replays.UsedKeyAnswers | src/cart/utils/place-checkout.ts:32-41 | in every reachable state a key its buyer has used is answered from the checkout it made, except that confirming a request refuses one not used for that request |
| Undoing.CartCheckoutUndone | src/cart/checkout.service.ts:160-188 | checking a cart out takes exactly its quantities off each listing and empties it; cancelling the checkout, or its expiry once its hold has run out and not before, brings every listing back as it was |
| Undoing.BuyNowUndone | src/order/order.service.ts:98-132 | the same of buying one listing directly, which leaves the cart alone |
| Undoing.ConfirmUndone | src/sourcing-request/admin-sourcing-request.service.ts:486-513 | the same of confirming a request's selection |
| Undoing.ReleaseUndoesPlace | src/payment/utils/release-checkout.ts:21-34 | ending a checkout just placed gives every listing back the very row it had, status included |
| Preparation.ReadyNeedsEveryTick | src/order/order.service.ts:284-350 | after preparing, however many requests tick and untick, the order can be marked ready exactly when the last word on each of the four items is yes |
| OrderMoves.EveryMove | src/order/order.service.ts:201-491 | the whole row every event leaves of an order, and exactly which are deleted: by their buyer, outside any checkout, before anybody accepted them |
| OrderLives.CalledOffIff | src/order/order.service.ts:367-404 | an order is cancelled if and only if its checkout ends unpaid, its buyer withdraws it while nobody has accepted it, or its farmer withdraws it before it is ready |
| OrderLives.PaidAfterHolding | src/payout/utils/eligibility.ts:17-20 | in every run after a delivery at t, an approval that pays for the order comes at t plus the holding period or later |
| OrderLives.VerifiedCanComplete | src/handover/handover.service.ts:86-162 | an agent can verify exactly the orders waiting for that agent, and in every run from then on can complete the handover |
| ListingMoves.EveryMove | src/produce/produce.service.ts:145-254 | the row every event leaves of a listing: price and supply change only as an edit asks, draft and disabled are left only by an edit that asks or entered by a disable, only an unreferenced listing is deleted, and all else moves stock and the status that follows it |
| NewRows.NewListing | src/produce/produce.service.ts:46-75 | of all events only a farmer's listing at a price makes a listing: on that farm, its whole quantity in both counters, its status as asked unless it is for sale with nothing to sell |
| NewRows.NewOrder | src/order/order.service.ts:98-132 | orders are made by the three ways of placing and by nothing else |
| Standing.FarmStands | src/verification/services/verification.service.ts:393-419 | a farm may be sold from exactly from its approval until it is unverified, and is in its approving agent's cluster until it leaves |
| Standing.CartMoves | src/cart/checkout.service.ts:124-138 | under every event a cart holds what was last put in it, and is emptied exactly when a checkout of it is placed |
| Standing.ReadsLast | src/order/order.service.ts:201-202 | a step acts on the row as it stood when the caller last read it |
| Refusals.FarmerAnswers | src/order/order.service.ts:201-350 | a farmer's step is refused for what was read of the order, and for having moved since only when that was in order |
| Refusals.WithdrawAnswers | src/order/order.service.ts:367-389 | cancelling is refused as unpaid, as too late, or as having moved since, in that order |
| Refusals.DeleteAnswers | src/order/order.service.ts:464-487 | deleting is refused as unpaid, as paid, as not the buyer's or accepted, or as having moved since, in that order |
| Refusals.HandoverAnswers | src/handover/handover.service.ts:86-162 | a handover step is refused exactly unless it is the agent's own and at the step before; the order's status never stands in the way |
| Refusals.EditAnswers | src/produce/produce.service.ts:175-225 | an edit is refused first for taking what orders hold, by the counters it read, then for their having moved |
| Refusals.RemovalAnswers | src/produce/produce.service.ts:230-254 | removing a listing is refused for its status only to an admin, and to anybody while an order or a selection refers to it |
| Solvency.MoneyOutWithinMoneyIn | src/payment/refund.service.ts:85-106 | in every run the live refunds of a paid checkout and the live payouts of its orders together stay within its charge |
| Solvency.NairaOutWithinNairaIn | src/payment/payment.service.ts:126-129 | where the charge was in naira, refunds and payouts together are at most the checkout's total |
| Solvency.OrderRefundsFit | src/payment/refund.service.ts:92-106 | while no whole refund is live, refunding an order goes through if and only if it is cancelled and not refunded; the balance never stands in the way |
| Solvency.RefundsWithinCharge | src/payment/refund.service.ts:85-106 | in every run the live refunds of any payment, orphans included, total at most its charge |
| Solvency.WholeRefundTakesAll | src/payment/refund.service.ts:57-116 | a whole refund goes through if and only if money is left and it was orphaned, or paid for orders none of which is being paid out; it leaves nothing, so no refund of any kind follows it |
| Solvency.FailedRefundComesBack | src/payment/refund.service.ts:189-198 | a refund that fails gives its amount back to the balance, a processed one does not |
| Settlement.NoDoublePayout | src/payout/utils/eligibility.ts:39-42 | no order is in two payouts that are pending or paid |
| Settlement.PayoutsAddUp | src/payout/payout.service.ts:131-148 | every payout is the sum of its items, and every item stands as its payout does |
| Settlement.ItemsPayForDelivery | src/payout/utils/eligibility.ts:17-46 | only delivered orders of paid checkouts are paid out, each its own price to its own farmer |
| Settlement.DeadPayoutsStayDead | src/payout/payout.service.ts:230-245 | a failed or reversed payout never comes back to life; `Transfers.PayoutMoves` says what each report makes of one |
| Settlement.ApprovalClears | src/payout/payout.service.ts:108-155 | a batch leaves nothing due to any farmer in it |
| Settlement.ApprovalPays | src/payout/payout.service.ts:108-155 | a batch pays each farmer in it the sum of what was due beforehand, once however often named, and nobody else anything; which orders those are is in `Approval.OnlyApprovalPays` |
| Approval.OnlyApprovalPays | src/payout/utils/eligibility.ts:12-47 | of all events only an approval pays out an order, and it pays one if and only if its farmer is named, it was delivered at least the holding period ago in a paid checkout without a live whole refund, it is not being paid out already, and the farmer's account is not on hold |
| Standing.AccountHolds | src/payout/utils/eligibility.ts:43-46 | under every event the time an account is held until is the last one set |
| Transfers.PayoutMoves | src/payout/payout.service.ts:197-256 | under every event a pending payout becomes what the provider reports, a succeeded one can only be reversed, its items go with it and nothing else of it changes |
| Transfers.FateOfTransfer | src/payout/payout.service.ts:230-256 | in every run after a pending payout's transfer is reported successful, the payout is SUCCEEDED or REVERSED, and until it is reversed none of its orders is paid out by anything else |
| Settlement.RefundOrPayout | src/payout/utils/eligibility.ts:22-37 | no reachable state has a live whole refund and a live payout of the same checkout |
| Settlement.HandoverAgrees | src/order/order.service.ts:313-350 | READY holds exactly while a handover is open, later statuses exactly once it is done, and from READY on the checklist is complete |
| Settlement.CompleteNeverRollsBack | src/handover/handover.service.ts:141-146 | the rollback of a completed handover is unreachable |
| Settlement.ClusteredHaveAgents | src/verification/services/verification.service.ts:411-419 | while a farm is in a cluster none of its open handovers lacks an agent |
| SourcingSafety.StatusIsDerived | src/sourcing-request/utils/sync-sourcing-request.ts:14-71 | in every run no stored request status is stale: it is what its other rows, as they now are, derive; `RequestStatus` says what each status means |
| SourcingSafety.OneLiveCheckout | src/sourcing-request/admin-sourcing-request.service.ts:440-442 | a request never has two live checkouts |
| SourcingSafety.RequestsMoveOn | src/sourcing-request/utils/sourcing-rules.ts:79-125 | CLOSED and COMPLETED are final and FULFILMENT never falls back |
| SourcingSafety.ClosesOnlyUnpaid | src/sourcing-request/admin-sourcing-request.service.ts:572-585 | closing commits only while no checkout of the request is paid |
| SourcingSafety.ClosingReleases | src/sourcing-request/admin-sourcing-request.service.ts:586-604 | closing leaves no live checkout of the request |
| Bystanders.OthersStandBy | src/payment/refund.service.ts:223-246 | no other transaction makes a payout item, or a refund but an orphan's automatic one |
| Interleaving.InterleavingKeepsOrder | src/payment/refund.service.ts:57-116 | with refunds and approvals as processes that lock, read and commit at different moments, every schedule keeps the committed ledger in order |
| Interleaving.NeverBoth | src/payment/refund.service.ts:223-246 | no schedule commits both a live whole refund and a live payout of one checkout |
| Interleaving.SolventUnderInterleaving | src/payout/payout.service.ts:104-155 | solvency survives every schedule |
| Interleaving.PayAllKeeps | src/payout/payout.service.ts:108-155 | an approval's whole batch commits at once without upsetting any process under way |
| Deadlock.PlansIncrease | src/payment/refund.service.ts:223-237 | each kind of call takes its advisory locks and produce rows in one strictly increasing order |
| Deadlock.NoDeadlock | src/payout/payout.service.ts:102-109 | while any transaction is unfinished, some transaction waits for nobody |
| Deadlock.SchedulesFinish | src/cart/checkout.service.ts:80-86 | every schedule is bounded by the locks left to take, and one that cannot go on has finished everybody |
| Deadlock.AllCanFinish | src/payout/payout.service.ts:102-109 | from wherever transactions that lock in order stand, some schedule brings every one to its end |
| Deadlock.CallsFinish | src/payment/utils/release-checkout.ts:22-30 | any number of the thirteen kinds of call, each with the locks it needs known when it starts, take a bounded number of steps and can always go on until all are done |
| Progress.StepOrder | src/payment/refund.service.ts:223-237 | refunds and approvals as interleaved processes, which find out whom to lock as they run, still hold only locks before the ones they have yet to take |
| Progress.SomebodyCanGo | src/payout/payout.service.ts:102-109 | while any refund or approval is unfinished, one of them waits for nobody |
| Progress.StepsRunOut | src/payout/payout.service.ts:102-155 | left to themselves, refunds and approvals take a bounded number of steps whoever goes when, and stop only when all have ended |
| Progress.NeverStuck | src/payment/refund.service.ts:57-116 | at every point of every schedule, with all other transactions in between, either all refunds and approvals have ended or one can take a step, and they can all be finished from there |
| Cart.CartService.TryAddLine | src/cart/cart.service.ts:208-237 | adds the quantity on top of what the cart holds, or says why not and changes nothing |
| Cart.CartService.AddLines | src/cart/cart.service.ts:189-202 | the loop over the lines, with the skipped ones in order |
| Cart.CartService.MergeItems | src/cart/cart.service.ts:101-141 | a repeated key changes nothing and answers as the first merge did |
| Cart.MergeAddsExactly | src/cart/cart.service.ts:189-237 | a merge adds exactly the quantities of the lines it does not skip and touches nothing else |
| Cart.MergeFits | src/cart/cart.service.ts:217-225 | a cart never grows beyond its limit |
| Cart.SkipsTheUnorderable | src/cart/cart.service.ts:226-230 | with room in the cart, the lines skipped are exactly those that cannot be ordered, whatever their order |
| Cart.AddableIff | src/cart/cart.service.ts:208-237 | a line can be added if and only if the cart has it or has room, and its listing is on sale with enough for all the cart would hold; otherwise what is missing is named, the cart's limit first |
| Cart.ReportsEachLine | src/cart/cart.service.ts:189-202 | whatever the room in the cart, a merge reports of each line exactly what stood in its way after the lines before it |
| PickAgent.PicksTheLeast | src/verification/utils/pick-agent.ts:16-31 | without a preference the pick comes before every candidate |
| PickAgent.PicksACandidate | src/verification/utils/pick-agent.ts:16-22 | a preferred candidate is picked, and only a candidate ever is |
| PickAgent.PickIgnoresOrder | src/verification/utils/pick-agent.ts:23-29 | the same candidates in any order give the same pick |
| VerificationDesk.Service.AssignRound | src/verification/services/assignment.service.ts:66-120 | assigns a waiting round to an eligible agent or leaves it; reports an agent exactly when it assigned one |
| VerificationDesk.Service.OpenNewRound | src/verification/services/assignment.service.ts:49-60 | opens and assigns a round unless the farm has one open |
| VerificationDesk.Service.ResetRound | src/verification/services/assignment.service.ts:126-162 | the round is open and held by nobody, exactly the same agents are eligible for it, and no other round has changed |
| VerificationDesk.Service.AssignWaiting | src/verification/services/assignment.service.ts:165-181 | afterwards a given round still waits only if nobody is eligible, and the count is how many got an agent |
| VerificationDesk.Service.InsertNewFarm | src/farm/services/farm.service.ts:153-170 | a new farm waits with one open round |
| VerificationDesk.Service.EditFarm | src/farm/services/farm.service.ts:209-299 | follows the edit decided on the farm as it was read |
| VerificationDesk.Service.ReassignOpenRound | src/farm/services/farm.service.ts:356-373 | the open round starts over without its declines |
| VerificationDesk.Service.DeclineRound | src/verification/services/verification.service.ts:333-354 | hands the round on and records the decline |
| VerificationDesk.Service.ApproveRound | src/verification/services/verification.service.ts:360-424 | round and farm are approved together, the farm into the deciding agent's cluster |
| VerificationDesk.Service.RejectRound | src/verification/services/verification.service.ts:427-461 | rejects the farm and takes it out of any cluster |
| RoundProofs.RecordKeeps | src/verification/services/verification.service.ts:500-518 | saving a draft keeps farms and rounds in order |
| RoundProofs.SuspendKeeps | src/farm/services/admin-farm.service.ts:194-201 | suspending a farmer's farms keeps farms and rounds in order |
| RoundProofs.ChosenIsEligible | src/verification/services/assignment.service.ts:84-112 | an agent is chosen exactly when one is eligible, and is one of them |
| RoundProofs.RoundsMatchFarms | src/verification/services/verification.service.ts:333-461 | in every run a waiting farm has exactly one open round and no cluster, a verified one none and a cluster, a rejected one neither, a suspended one at most one, and no decliner holds a round |
| RoundProofs.DeclineUsesUp | src/verification/services/verification.service.ts:332-354 | a decline leaves exactly the other eligible agents, and the round goes to one of them or waits because there is none |
| RoundProofs.DeclinesRunOut | src/verification/services/verification.service.ts:332-354 | while the agents and the farm's LGA stay as they are, a round is declined at most once by each eligible agent, and once by a holder who moved away after being assigned |
| RoundProofs.RetryLeavesNobody | src/verification/services/assignment.service.ts:164-181 | the retry job leaves a round waiting only if nobody is eligible |
| RoundProofs.SuspendedUntilStaleEdit | src/farm/services/farm.service.ts:230-260 | a suspended farm with no open round leaves that status if and only if the step is an edit that read it rejected, or verified and moves it |
| RoundMoves.FarmMoves | src/verification/services/verification.service.ts:360-461 | the row every event leaves of a farm: who verifies, rejects, reopens, suspends or moves it, and when |
| RoundMoves.EveryRound | src/verification/services/assignment.service.ts:66-181 | the round every event leaves: decided only by its holder, and handed back, moved or retried it goes to a suitable agent or waits because there is none |
| RoundMoves.GoesToTheFirst | src/verification/utils/pick-agent.ts:16-31 | a round goes to a suitable agent whom no other suitable one precedes in cluster size, then rounds in hand, then age, each counted over the tables |
| RoundMoves.DeclinesMove | src/verification/services/verification.service.ts:333-354 | a decline is recorded exactly when the holder declines, and forgotten exactly when the farm moves to another LGA with the round open |
| RoundMoves.ResubmissionReturns | src/farm/services/farm.service.ts:230-290 | a farm resubmitted in its LGA gets a round for the agent of its newest one, if that agent is still verified there |
| RoundMoves.NewFarm | src/farm/services/farm.service.ts:153-170 | a new farm waits in its LGA with one round, the preferred agent's if that agent is verified there |
| RoundMoves.AgentsAndReads | src/farm/services/farm.service.ts:209-222 | an edit acts on the farm as it stood when its session last read it, and nothing but setting an agent changes one |
| Comeback.ComesBackIff | src/farm/admin-farmer.controller.ts:27 | a suspended farm can ever be verified again if and only if it has an open round or an edit under way read it rejected or verified |
| Comeback.StrandedForGood | src/farm/services/farm.service.ts:236-289 | a suspended farm with neither gets no round and stays suspended through every run |
| Comeback.SuspendedForGood | src/farm/services/admin-farm.service.ts:194-201 | a reachable farm, suspended right after being verified, that no run ever verifies again |
| Comeback.StaleEditBringsBack | src/farm/services/farm.service.ts:236-289 | a run in which an edit that read the farm before the suspension puts it back to PENDING |

## Left out

- The payment provider, storage, mail, push, queues and HTTP: the provider's answers are events, in any order and with repeats.
- Which refund a webhook is about (`findForResult`): an event names the refund it settles, so bounds on refunds are over the recorded ledger.
- Audit events, notifications, formatters other than the cart's totals, searches, lists and summaries: nothing proved here rests on them.
- Who may call what: ownership and roles are not modelled beyond buyer against seller and an agent's own rounds and handovers.
- Input validation is modelled only by what the ledger needs: positive prices and order quantities, no listing twice in a request's lines.
- Address, delivery date, names, units and clusters in matching: a flag and a set passed in; unit conversion in a selection's coverage is left to the quantities given.
- Delivery itself: the program modelled records no FULFILLED status; an event of the environment does.
- Separate transactions inside `close` and the unlocked reads of order confirmation: each is one atomic step here.
- Decimal precision: the program's decimals are taken as exact, and `Money` relates them to integers.
- Collisions of hashed advisory-lock names, and the rows of sourcing requests in `Deadlock`, which the program locks in both orders.
- Evidence, checks and notes of a verification round: whether its checklist is complete is a flag.
- Agent activation, farmer account status and cluster records other than which agent's cluster holds a farm.
- Services.Database.SendRejected: the batch a provider refused is given as a set of payout ids.
- Services.Database.ExpireOverdue: the scan is given as a list, so its limit of 100 and its ordering are not modelled.
- Services.Database.Approve: approval runs as one transaction here; `Interleaving` models its locks.
- Services.Database.CheckedItems: which listings fit a request by name, unit and cluster is the set `matching`.
- Services.Database.SaveAllocations: the same set is given.
- Services.Database.ConfirmRequest: the same set is given, and a selection's coverage is in the quantities given, not converted between units.
- Services.Database.AssignAgent: whether the agent is verified and covers the selection is the flag `suits`.
- VerificationDesk.Service.ApproveRound: whether the round's checklist is complete is a flag.
- Deadlock.CallsFinish: the rows of orders and of sourcing requests are not among the locks, and only `Progress` has processes that learn their locks as they run.
