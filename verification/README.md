# Verified model of the e-commerce services

A Dafny model of the checkout saga and of the services around it, with proofs of what they keep true together:
over every interleaving of requests, with lost and late messages, crashes, redeliveries and retries. Source paths
below are relative to the repository's root. `dafny verify dfyconfig.toml` checks everything.

## What is modelled

| module | subject |
|---|---|
| `Stock`, `ChargeBook` | the atomic meaning of a stock transaction and of a charge under an Idempotency-Key |
| `Saga` | the whole checkout as a step system: calls of `create_order`, the saga of each order, catalog, payment service, reconciliation and delivery simulator |
| `SagaOrders`, `SagaSystem`, `SagaLedgers` | its invariants: one order, stock and calls, payments and the order topic |
| `SagaTheorems`, `SagaVerdicts`, `SagaExact` | what follows for every run: calls, charges and stock; verdicts and events; exact books without faults |
| `SagaWitnesses`, `SagaConditions` | what goes wrong outside the assumptions; exactly which faults each promise needs to be free of, for every new shop |
| `CheckoutRounds`, `Checkout` | the order service's own code as methods over mutable objects, each statement tied to a step of `Saga` |
| `RowLocks` | the catalog's transactions statement by statement, refining `Stock` |
| `PaymentCell`, `PaymentRace` | the payment service command by command with a clock and key expiry, refining `ChargeBook`; its unsafe mode |
| `ConsumerLoop`, `ConsumerProcess` | the Kafka consumer loop of both consumers as a step system, and as a method with a termination measure |
| `Eligibility`, `EligibilityRuns`, `Reviews` | the upsert fold, at-least-once seen through it, and reviews |
| `ProductCache` | cache-aside reads against stock writes, with a clock |
| `RefreshTokens` | refresh-token rotation with a TTL blacklist |
| `Sums` | sums over sequences |

Every machine has the same shape: a `State`, a `Step`, `CanStep`, `Apply`, and `Final` over a run. History a service does
not store (net units per line, executed charges, handled messages, token lineage) is carried in the state beside it and
never decides a step.

## Fault model and assumptions

An HTTP call is a request in flight, at most one effect at the server, and a reply that arrives or does not; the
application does not retry, and a request may take effect long after its caller gave up. Which faults occur is a
parameter of a run (`Saga.Faults`, and one or two flags in the other machines). The main theorems assume:

* no process dies, and no exception ends a request or a pass, between a compensating release and the FAILED commit of an
  order with `stock_reserved` set (`services/order-service/app/routers/orders.py:161-166`,
  `services/order-service/app/reconciliation.py:40-48`). A request ended by an exception, such as a commit that raises at
  `orders.py:166` or a `r.json()` that does at `services/order-service/app/clients.py:113`, leaves its order as a crash
  does, and the sweep takes that order too; "crash" means both from here on;
* reconciliation takes only orders whose saga has ended: there is no live sweep (its update at `reconciliation.py:46-48`
  has no guard);
* where processes crash, two replicas do not reconcile one order at the same time. Every replica runs both passes
  (`services/order-service/app/main.py:30-33`), two replicas are deployed
  (`gestalt-commerce-docs/docs/03-kubernetes-deployment.md:28`), and the selects at `reconciliation.py:34-36` and
  `delivery_simulator.py:27-33` lock nothing, so the model has any number of passes at one order, under a flag;
* a charge starts, ends and is stored before its claim expires (`PaymentCell.DifferIffOverruns`,
  `PaymentCell.CloseIffOverruns`: results can differ, and executions come closer than a TTL, if and only if not);
* every handler attempt that wrote something returned or was made good by a later attempt, for the message-level reading
  of exactly-once only (`EligibilityRuns.ExplainedIffWhole`); the write-level reading needs nothing;
* calls of `create_review` for one pair neither overlap nor die between insert and update, for single use only
  (`Reviews.ReviewsTwiceIffUnguarded`);
* no cache fill overlaps a write of the same product, for freshness only (`ProductCache.StaleIffOverlap`); the staleness
  bound needs nothing;
* producing to the dead-letter queue and flushing is durable; a commit that raises in the DLQ branch leaves the loop and
  ends the process; refresh-token requests run one after the other.

A run that keeps the first three is called guarded. Most promises of the checkout need less, and `SagaConditions` has
the exact condition of each, for every new shop with something in stock (or, where an order has to be PAID, something
with a price above zero in stock):

| what can go wrong in some run | if and only if |
|---|---|
| stock is oversold; a line is released twice, or sold and given back | window crash, or live sweep, or crash with overlapping passes |
| a FAILED order keeps units; stock and what orders hold, or stock and sales once all orders are decided, do not add up | lost message, or crash, or live sweep |
| the total charged is not the total of PAID orders once all calls returned | lost message, or live sweep |
| a verdict changes; an event is false; a call returns without exactly its event; someone who did not buy reviews | live sweep |
| a second order.paid or order.failed | live sweep, or crash with overlapping passes |
| a second order.delivered | overlapping passes |
| an order charged twice; two orders under one key | never |

Order ids, UUIDs in the source, are positions in the order table; the eligibility id `user:product` is a pair; prices do
not change during a run.

## Where the documents and the code differ

`gestalt-commerce-docs/services/order-service.md:38` says a failed reservation needs no compensation. The code releases
the lines reserved before the failing one (`orders.py:127-133`), and the model follows the code. A FAILED order keeps
`stock_reserved` true after a refund; that is harmless only because nothing takes a FAILED order again. A crash after a
reserve and before `stock_reserved` is committed, or a reserve whose reply is lost, keeps units out of stock for good
(`SagaWitnesses.EarlyCrashLeaksStock`), so stock conservation is an inequality under faults and exact without them
(`SagaConditions.LosesCountIffFaulty`). In the unsafe payment mode a bare claim left by the safe mode is answered as a decline, because
`_respond` looks only for `success` (`payments.py:61-71`, `payments.py:96-103`).

## Model

| member | source | states |
|---|---|---|
| `SagaConditions.OversellsIffUnguarded` | services/order-service/app/reconciliation.py:34-48 | for every new shop with something in stock: some run drives a product's stock negative, or keeps and sells more than there was, if and only if reconciliation may take a running saga, or processes may crash and die in a release-then-commit window, or crash while two passes may reconcile one order at once; lost messages never do |
| `SagaConditions.BreaksLinesIffUnguarded` | services/order-service/app/clients.py:67-92 | the same faults and no others let the net units of a line be neither 0 nor its quantity, or a PAID line be other than its quantity |
| `SagaConditions.VerdictChangesIffLiveSweep` | services/order-service/app/reconciliation.py:46-48 | for every new shop that can sell something: some step changes a PAID or FAILED status if and only if reconciliation may take a running saga |
| `SagaConditions.SaysTwiceIffMet` | services/order-service/app/reconciliation.py:34-54 | some order gets more than one order.paid or order.failed if and only if reconciliation may take a running saga, or two passes may be at the order of a crashed one |
| `SagaConditions.MisleadsIffLiveSweep` | services/order-service/app/reconciliation.py:46-54 | each of order.paid, order.failed and order.delivered can be on the topic of an order that is not in that state if and only if reconciliation may take a running saga |
| `SagaConditions.ReturnsUntoldIffLiveSweep` | services/order-service/app/routers/orders.py:147-196 | a call can return with another set of terminal events than its verdict's if and only if reconciliation may take a running saga |
| `SagaConditions.DeliversTwiceIffOverlap` | services/order-service/app/delivery_simulator.py:27-51 | a second order.delivered for one order is possible if and only if two passes may overlap |
| `SagaConditions.FailsHoldingIffFaulty` | services/order-service/app/routers/orders.py:118-156 | a FAILED order can keep net units of a line if and only if messages may be lost, processes may crash or reconciliation may take a running saga |
| `SagaConditions.UnbalancesIffFaulty` | services/order-service/app/routers/orders.py:118-189 | at some moment stock plus the lines held, read off rows and positions, can be other than the initial stock under the same condition |
| `SagaConditions.LosesCountIffFaulty` | services/order-service/app/routers/orders.py:127-189 | with every order decided, stock plus the units of PAID orders can be other than the initial stock if and only if the run may contain one of those faults |
| `SagaConditions.MisChargesIffLost` | services/order-service/app/routers/orders.py:159-189 | with every call returned, the total charged can be other than the total of PAID orders if and only if messages may be lost or reconciliation may take a running saga; crashes and overlapping passes never do it |
| `SagaTheorems.NeverOversold` | services/order-service/app/routers/orders.py:117-189 | in every guarded run stock is never negative, and stock plus the units of all PAID orders is at most the initial stock, per product |
| `SagaTheorems.LinesAllOrNothing` | services/order-service/app/clients.py:48-92 | in every guarded run each order line's net units taken from the catalog is 0 or the quantity ordered, and the quantity once the order is PAID |
| `SagaTheorems.RunKeepsInv` | services/order-service/app/routers/orders.py:51-207 | the invariant on orders, stock, calls, prices, payments and topic survives every guarded run |
| `SagaTheorems.PaidChargedOnce` | services/order-service/app/routers/orders.py:159-189 | under any faults at all, a PAID order has exactly one successful charge under its key, with its own id and amount, and the amount is quantity times unit price summed over its lines |
| `SagaLedgers.AmountIsSum` | services/order-service/app/routers/orders.py:79-83 | the price loop over a basket is the sum of what its lines cost |
| `SagaLedgers.LineAddsItsPrice` | services/order-service/app/routers/orders.py:81-83 | a line of quantity q adds q times its unit price, anywhere in the basket |
| `SagaTheorems.ChargedAtMostOnce` | services/payment-service/app/routers/payments.py:108-122 | under any faults at all, no order, whatever its end, is charged twice |
| `SagaTheorems.ChargedCoversPaid` | services/order-service/app/routers/orders.py:159-189 | under any faults at all, the total charged is at least the total of PAID orders, whatever the prices |
| `SagaTheorems.OneOrderPerKey` | services/order-service/app/routers/orders.py:62-102 | under any faults at all, calls with one Idempotency-Key are answered with one order id, at most one of them runs a saga, and no other row has that key |
| `SagaTheorems.NeverReraised` | services/order-service/app/routers/orders.py:95-102 | under any faults at all, the row behind a collision on the key is found, so the integrity error is never raised again |
| `SagaTheorems.ReplayIsAnswered` | services/order-service/app/routers/orders.py:62-101 | a call that looks up a key with a row, first or after a collision, is answered with that row's order, and nothing else happens |
| `SagaTheorems.LostRaceIsAnswered` | services/order-service/app/routers/orders.py:89-101 | a call that priced its basket after another inserted under its key collides and is answered with that order |
| `SagaTheorems.AnswerIsFinal` | services/order-service/app/routers/orders.py:65-101 | an answer from a row is never revised |
| `SagaTheorems.RejectedForAReason` | services/order-service/app/routers/orders.py:59-83 | without lost messages and crashes only a call without a key, with an empty basket or with an unknown product is turned away, and a call without a key gets nothing else |
| `SagaVerdicts.VerdictIsFinal` | services/order-service/app/routers/orders.py:131-189 | in every run without a live sweep, from any reachable state, PAID and FAILED never change again |
| `SagaVerdicts.EventsAtMostOnce` | services/order-service/app/routers/orders.py:188-196 | in every run without a live sweep and without crashes that meet overlapping passes, at most one of order.paid and order.failed is published per order |
| `SagaVerdicts.EventsAreTrue` | services/order-service/app/routers/orders.py:188-196 | in every run without a live sweep, order.paid, order.failed and order.delivered are only published for an order in that state |
| `SagaVerdicts.TerminalEventPublished` | services/order-service/app/routers/orders.py:147-196 | in every run without a live sweep, a call that returned published its verdict's one event |
| `SagaVerdicts.DeliveredAtMostOnce` | services/order-service/app/delivery_simulator.py:27-51 | whatever else goes wrong, an order is announced as delivered at most once unless two passes overlap |
| `SagaVerdicts.DeliveryEventsAreTrue` | services/order-service/app/delivery_simulator.py:35-51 | in every run without a live sweep, a delivery event names a PAID, delivered order, its user and the product of every one of its lines |
| `SagaVerdicts.ChargedEqualsPaid` | services/order-service/app/routers/orders.py:159-189 | in every run without lost messages and without a live sweep, once all calls returned, what was charged equals what PAID orders owe |
| `SagaExact.ExactConservation` | services/order-service/app/routers/orders.py:118-189 | without lost messages, crashes and live sweeps, at every moment stock plus the lines held by all orders, read off their rows and positions, is the initial stock |
| `SagaExact.TerminalHoldings` | services/order-service/app/routers/orders.py:127-189 | in the same runs, by row and position and by the ledger of each line, a FAILED order holds nothing and a PAID order exactly its lines, repeated products included |
| `SagaWitnesses.WindowCrashReleasesTwice` | services/order-service/app/reconciliation.py:40-48 | in any new shop with the product in stock: a crash between release and FAILED commit leaves one unit more than there was |
| `SagaWitnesses.OverlapReleasesTwice` | services/order-service/app/reconciliation.py:34-44 | in any such shop: two passes over one crashed order leave one unit more than there was |
| `SagaWitnesses.LiveSweepOversells` | services/order-service/app/reconciliation.py:34-48 | a sweep of a running saga returns the unit of an order that becomes PAID |
| `SagaWitnesses.LiveSweepUndoesPaid` | services/order-service/app/reconciliation.py:46-48 | the unguarded status update can turn PAID into FAILED |
| `SagaWitnesses.LiveSweepSaysBoth` | services/order-service/app/reconciliation.py:46-54 | order.paid is followed by order.failed, and the call returned a FAILED order that was charged |
| `SagaWitnesses.LiveSweepDeliversFailed` | services/order-service/app/delivery_simulator.py:35-51 | a FAILED order is marked and announced as delivered |
| `SagaWitnesses.OverlapFailsTwice` | services/order-service/app/reconciliation.py:34-54 | two replicas that reconcile one abandoned order both publish order.failed |
| `SagaWitnesses.OverlapDeliversTwice` | services/order-service/app/delivery_simulator.py:27-51 | two delivery passes that both select an order announce it twice |
| `SagaWitnesses.EarlyCrashLeaksStock` | services/order-service/app/routers/orders.py:120-156 | a crash before `stock_reserved` is committed leaves a FAILED order holding its unit |
| `SagaWitnesses.LostReserveReplyLeaksStock` | services/order-service/app/clients.py:55-56 | so does a reserve that was served and whose reply is lost |
| `SagaWitnesses.LostReplyChargesFailedOrder` | services/order-service/app/clients.py:107-108 | a lost charge reply fails an order that was charged |
| `Checkout.OrderService.ReserveStock` | services/order-service/app/clients.py:48-64 | reserved exactly if the request was served, granted and answered; the stock changes even if the reply is lost |
| `Checkout.OrderService.ReleaseStock` | services/order-service/app/clients.py:67-92 | best effort: the units come back unless the request is lost, and the loop goes on either way |
| `Checkout.OrderService.Charge` | services/order-service/app/clients.py:95-115 | charged exactly if approved and answered; a lost reply still leaves the charge in the ledger |
| `Checkout.OrderService.FindByKey` | services/order-service/app/routers/orders.py:62-68 | finds the committed row under a key, or there is none |
| `Checkout.OrderService.PriceItems` | services/order-service/app/routers/orders.py:80-83 | the sum over the lines of quantity times unit price, or some product is unknown |
| `Checkout.OrderService.Admit` | services/order-service/app/routers/orders.py:59-83 | the key is looked at before the basket and the basket before its prices: no key, else the order of a known key whatever the basket, else an empty basket, else an unknown product; anything else goes on |
| `Checkout.OrderService.PlaceOrder` | services/order-service/app/routers/orders.py:88-115 | one PENDING row and its order.created event |
| `Checkout.OrderService.MarkStockReserved` | services/order-service/app/routers/orders.py:155-156 | commits `stock_reserved`, only after every line was confirmed |
| `Checkout.OrderService.Close` | services/order-service/app/routers/orders.py:188-196 | commits the verdict, then publishes its one event; no other order changes |
| `Checkout.OrderService.ReserveLines` | services/order-service/app/routers/orders.py:118-125 | stops at the first unconfirmed line, with exactly the requests before it applied |
| `Checkout.OrderService.ReleaseLines` | services/order-service/app/routers/orders.py:129-130 | releases the first k lines in order, whoever runs the loop |
| `Checkout.OrderService.Compensate` | services/order-service/app/routers/orders.py:127-151 | releases, then FAILED and its event |
| `Checkout.OrderService.Settle` | services/order-service/app/routers/orders.py:159-207 | PAID exactly if the charge was approved and answered, else refunded and FAILED |
| `Checkout.OrderService.RunSaga` | services/order-service/app/routers/orders.py:117-207 | with no message lost: PAID if and only if every product's summed demand is in stock and the charge goes through; then exactly the lines are gone, otherwise stock and charges are untouched |
| `Checkout.OrderService.CreateOrder` | services/order-service/app/routers/orders.py:51-207 | a known key is answered with its one order, even if the basket is empty by now; each other refusal exactly for its reason; neither changes anything; an accepted call leaves one row with the summed price, two events, one charge if PAID, all or nothing |
| `Checkout.OrderService.ReconcileOrder` | services/order-service/app/reconciliation.py:38-54 | one stuck order: its lines released if it had reserved, then FAILED and announced |
| `Checkout.OrderService.ReconcileIfStuck` | services/order-service/app/reconciliation.py:34-54 | a row is swept exactly if it is PENDING and old, `stock_reserved` or not |
| `Checkout.OrderService.ReconcilePass` | services/order-service/app/reconciliation.py:29-63 | every row that was PENDING and old is FAILED, with one order.failed of its user and products; every other row is unchanged and has no event; the count is the number of the former; stock is released order by order, each order's calls having their own fate |
| `Checkout.OrderService.DeliverOrder` | services/order-service/app/delivery_simulator.py:35-51 | the flag is committed, then the event published |
| `Checkout.OrderService.DeliveryPass` | services/order-service/app/delivery_simulator.py:22-55 | every row that was PAID, undelivered and old is delivered, with one event that lists all its products; every other row is unchanged and has no event; the count is the number of the former |
| `Checkout.LoopSucceedsIffFeasible` | services/order-service/app/routers/orders.py:118-125 | the reserve loop goes through if and only if the summed demand on each product, over repeated lines, is at most its stock |
| `Checkout.ConfirmedTakes` | services/order-service/app/routers/orders.py:118-125 | confirmed lines took exactly their units, product by product |
| `Checkout.CompensationRestores` | services/order-service/app/routers/orders.py:127-130 | the compensation loop restores the stock map exactly |
| `Checkout.ReleasesGiveBack` | services/order-service/app/routers/orders.py:162-163 | releasing lines adds back their summed units |
| `Checkout.SweepReturnsUnits` | services/order-service/app/reconciliation.py:38-44 | a pass returns, per product, exactly what the stuck orders with `stock_reserved` held |
| `Checkout.VerdictMeaning` | services/order-service/app/routers/orders.py:117-189 | the verdict reached through the loops is the all-or-nothing statement |
| `RowLocks.RunsLikeAtomic` | services/catalog-service/app/routers/catalog.py:99-133 | every interleaving of locked transactions replies and ends like atomic operations in reply order; a rolled back one has no effect |
| `RowLocks.RepliesMean` | services/catalog-service/app/routers/catalog.py:99-138 | each reply of a run, by product, quantity and the stock before it: 422, else 404, else 409, else granted with that product's stock moved by the quantity |
| `RowLocks.UndisturbedRequest` | services/catalog-service/app/routers/catalog.py:93-138 | a request for a row nobody has locked can be served to its end, as the atomic operation and leaving no lock |
| `RowLocks.StockNeverNegative` | services/catalog-service/app/routers/catalog.py:99-114 | committed stock is never negative |
| `RowLocks.RemainingIsCommitted` | services/catalog-service/app/routers/catalog.py:110-138 | `remainingStock` is the value that very commit left, moved by exactly the quantity |
| `PaymentCell.RefinesBook` | services/payment-service/app/routers/payments.py:107-133 | each command is a step of the first-result-wins map: a result replied is `ChargeOnce`, nothing else changes what callers can be told, time only forgets |
| `PaymentCell.ReadsTellTheBook` | services/payment-service/app/routers/payments.py:74-133 | a poll and `get_result` answer the settled result whenever there is one; `get_result` else tells a bare claim from a missing key, and a poll goes on with one attempt less; the key is untouched |
| `PaymentCell.FreeKeyIsCharged` | services/payment-service/app/routers/payments.py:108-122 | an undisturbed call for a free key claims, charges once, stores the result for a TTL and is told it |
| `PaymentCell.SettledKeyIsReplayed` | services/payment-service/app/routers/payments.py:111-118 | an undisturbed call for a settled key is told its result and leaves it alone |
| `PaymentCell.BusyAfterTenPolls` | services/payment-service/app/routers/payments.py:74-84 | in every run, a caller that finds the key taken is told CHARGE_IN_PROGRESS only after exactly ten polls |
| `PaymentCell.ProcessedAtMostOnce` | services/payment-service/app/routers/payments.py:107-122 | within the first claim's time `_process_charge` runs at most once for the key, whoever crashes |
| `PaymentCell.AgainIffOverruns` | services/payment-service/app/routers/payments.py:107-122 | for every new store: a key can be claimed or processed again before that if and only if processing may outlast its claim |
| `PaymentCell.ExecutionsSpaced` | services/payment-service/app/routers/payments.py:108-121 | of two executions of one key, whoever claimed first, the one that starts later does so a full TTL after the other's settling SET, or after its claim if it never settled; no claim is executed twice |
| `PaymentCell.CloseIffOverruns` | services/payment-service/app/routers/payments.py:108-121 | for every new store: two executions of one key can come closer than that if and only if processing may outlast its claim |
| `PaymentCell.RepliesAgree` | services/payment-service/app/routers/payments.py:61-133 | two results sent for a key agree, success or decline, unless a TTL passed between settling and sending |
| `PaymentCell.DifferIffOverruns` | services/payment-service/app/routers/payments.py:108-121 | results within a TTL can differ if and only if processing may outlast its claim |
| `PaymentCell.SlowChargeRunsTwice` | services/payment-service/app/routers/payments.py:120-121 | a charge slower than the TTL is run twice, with two results |
| `PaymentCell.SettledStays` | services/payment-service/app/routers/payments.py:120-121 | a settled key keeps its value while it lives |
| `PaymentCell.WaitForResult` | services/payment-service/app/routers/payments.py:74-84 | the first settled value among at most ten reads, else CHARGE_IN_PROGRESS |
| `PaymentCell.Store.Charge` | services/payment-service/app/routers/payments.py:74-122 | a settled key answers its result; a free one is charged once and stored; a claimed one answers the first of ten reads that is settled, else CHARGE_IN_PROGRESS (safe), or is declined (unsafe) |
| `PaymentRace.UnsafeModeChargesTwice` | services/payment-service/app/routers/payments.py:91-105 | two overlapping calls in the unsafe mode are both charged and told any two results |
| `PaymentRace.UnsafeModeSerial` | services/payment-service/app/routers/payments.py:91-105 | without overlap the unsafe mode charges once and all replies agree |
| `PaymentRace.ChargesTwiceIffOverlap` | services/payment-service/app/routers/payments.py:91-105 | the unsafe mode can charge twice if and only if calls may overlap |
| `ConsumerLoop.NothingSkipped` | services/notification-service/app/consumer.py:91-134 | across crashes, every offset below the committed one was handled or is in the DLQ |
| `ConsumerLoop.RetryCountsAreCurrent` | services/review-service/app/consumer.py:94-137 | at the loop head each retry count belongs to the current position of its partition and lies in 1..max-1 |
| `ConsumerLoop.PartitionOrderKept` | services/review-service/app/consumer.py:99-137 | within a partition messages are handled, and their writes made, in log order |
| `ConsumerLoop.DuplicateBound` | services/notification-service/app/consumer.py:106-134 | handler returns are at most distinct messages plus crashes plus raised commits |
| `ConsumerLoop.DlqBound` | services/notification-service/app/consumer.py:128-134 | a message reaches the DLQ at most once plus the number of crashes |
| `ConsumerLoop.DlqOnlyAfterMax` | services/notification-service/app/consumer.py:113-134 | in every run, a message in the DLQ failed at least once and at least as often as the configured maximum |
| `ConsumerProcess.PassDecreases` | services/notification-service/app/consumer.py:97-134 | remaining messages times max(1, max attempts), less outstanding retries, falls with every undisturbed pass |
| `ConsumerProcess.LeftNonNegative` | services/notification-service/app/consumer.py:97-134 | that measure is bounded below |
| `ConsumerProcess.Process.Pass` | services/review-service/app/consumer.py:100-137 | one pass is a run of the machine, with any commit raising; undisturbed it commits, seeks back or dead-letters |
| `ConsumerProcess.Process.CommitHandled` | services/review-service/app/consumer.py:111-114 | the commit after the handler; if it raises the message counts as failed |
| `ConsumerProcess.Process.OnException` | services/review-service/app/consumer.py:114-137 | the attempt is counted, then seek back below the maximum, DLQ at it |
| `ConsumerProcess.Process.CommitDlq` | services/review-service/app/consumer.py:132-139 | a raising commit here ends the process |
| `ConsumerProcess.Process.Drain` | services/notification-service/app/consumer.py:97-134 | a fixed log is drained: every partition committed to its end; a message goes to the DLQ, once and after exactly max(1, max attempts) attempts, if those all fail, and is else handled once, by its first attempt that does not fail |
| `Eligibility.Collection.HandleEvent` | services/review-service/app/consumer.py:40-57 | the collection is the fold of the upserts made before the database failed, all of them if it did not |
| `Eligibility.LastWriterWins` | services/review-service/app/consumer.py:49-57 | a pair's entry holds the last stamp written and is as reviewed as it was |
| `Eligibility.RedeliveriesAbsorbed` | services/review-service/app/consumer.py:49-57 | dropping every delivery that comes again later preserves the fold |
| `EligibilityRuns.WritesAsIfOnce` | services/review-service/app/consumer.py:99-137 | in every run the collection is as if each write was made once, in an order that follows every partition's log |
| `EligibilityRuns.RunAttempts` | services/review-service/app/consumer.py:109-137 | in every run the writes and the returned messages are those of its attempts, each with as many writes as its handler got to make |
| `EligibilityRuns.HandledAsIfOnce` | services/review-service/app/consumer.py:40-137 | at-least-once is exactly-once under any exceptions, crashes and redeliveries: if every attempt that wrote something returned or was made good by a later one, the collection is the fold of the handled messages, each once, in log order per partition |
| `EligibilityRuns.TornRedeliveryHasNoOrder` | services/review-service/app/consumer.py:49-57 | even with every message handled, a redelivery that stops half-way and is given up leaves a collection no order of the handled messages explains |
| `EligibilityRuns.ExplainedIffWhole` | services/review-service/app/consumer.py:49-57 | for every topic, log and start: all reachable collections are explained by some order of the handled messages if and only if handlers cannot stop half-way or no message makes a write |
| `Reviews.ReviewsAreVerified` | services/review-service/app/routers/reviews.py:36-57 | across any shop run without a live sweep and any run of the review service over its topic, a review's user has a PAID, delivered order containing the product |
| `Reviews.UnverifiedIffLiveSweep` | services/review-service/app/routers/reviews.py:36-57 | for every new shop that can sell something: someone without such an order can review if and only if reconciliation may take a running saga, whatever else goes wrong in either service |
| `Reviews.ReviewsNamePurchases` | services/review-service/app/routers/reviews.py:46-50 | if callers leave the order to the service, every review names a PAID, delivered order of its user that contains the product |
| `Reviews.AcceptedCall` | services/review-service/app/routers/reviews.py:35-58 | the service's commands, undisturbed: one review of the caller's order or else the eligible one, and the pair is closed |
| `Reviews.RefusedCall` | services/review-service/app/routers/reviews.py:37-43 | a call for a pair that is not eligible, or reviewed, is refused without a trace |
| `Reviews.ReviewedIsFinal` | services/review-service/app/consumer.py:52-55 | `reviewed` never returns to false |
| `Reviews.SingleUse` | services/review-service/app/routers/reviews.py:36-57 | one review per pair if calls for it neither overlap nor die half-way |
| `Reviews.ReviewsTwiceIffUnguarded` | services/review-service/app/routers/reviews.py:36-57 | for every topic: some run leaves two reviews of one pair if and only if a product was delivered and calls may overlap or die between insert and update |
| `Reviews.ReviewService.CreateReview` | services/review-service/app/routers/reviews.py:34-58 | accepted exactly if eligible and unreviewed; the review names the caller's order or the eligible one, and the pair is closed |
| `ProductCache.BoundedStaleness` | services/catalog-service/app/routers/catalog.py:46-82 | every product or listing reply is what the table held at the fill's read, less than the TTL and the fill's delay ago |
| `ProductCache.HitsAreCurrent` | services/catalog-service/app/cache.py:20-30 | without overlapping fills a hit is the current row, unless a writer committed within the last TTL and has not deleted the key |
| `ProductCache.OverlappingFillIsStale` | services/catalog-service/app/routers/catalog.py:70-82 | for every catalog and product, a fill around a commit and its delete leaves the old row cached |
| `ProductCache.StaleIffOverlap` | services/catalog-service/app/routers/catalog.py:70-135 | for every catalog with a product: with all writers done, a hit can be stale if and only if fills may overlap writes |
| `ProductCache.PageMeans` | services/catalog-service/app/routers/catalog.py:59-63 | a page holds the rows of the ids from the offset on, limit of them or as many as there are, and the number of all products |
| `ProductCache.PagesCoverCatalog` | services/catalog-service/app/routers/catalog.py:47-65 | pages side by side are the whole catalog, each product once and in id order, for every limit |
| `ProductCache.PageGoesStale` | services/catalog-service/app/cache.py:29-30 | for every catalog and every page with a product on it: a write leaves the page cached and stale, without any overlap |
| `ProductCache.CatalogReads.Get` | services/catalog-service/app/routers/catalog.py:68-82 | serial reads: a product reply is always the table's row, a listing may be the cached page |
| `ProductCache.CatalogReads.Write` | services/catalog-service/app/routers/catalog.py:110-116 | a committed row and a deleted key keep product keys coherent, and only that key goes |
| `RefreshTokens.AcceptedOnce` | services/auth-service/app/routers/auth.py:77-100 | a token is accepted once; again only after a lost commit and in the last second before it expires |
| `RefreshTokens.OneLiveDescendant` | services/auth-service/app/routers/auth.py:29-100 | of a login's tokens all but the latest are revoked, and no token is replaced twice, whatever is lost |
| `RefreshTokens.RevokedIsFinal` | services/auth-service/app/routers/auth.py:95-112 | a revoked token, by refresh or logout, is never accepted again |
| `RefreshTokens.OneUserPerLogin` | services/auth-service/app/routers/auth.py:91-100 | all tokens that descend from one login belong to one user |
| `RefreshTokens.OnlyUsersWhoLoggedIn` | services/auth-service/app/routers/auth.py:68-100 | every token of a run belongs to a user who logged in during it |
| `RefreshTokens.FreshTokenLasts` | services/auth-service/app/routers/auth.py:29-43 | a new token, by login or by rotation, is usable until exactly its TTL is over if nobody presents it, whatever happens to others |
| `RefreshTokens.AgainAfterLostCommit` | services/auth-service/app/redis_client.py:12-18 | after a lost commit, whatever happens to other tokens meanwhile, the token is usable again exactly from the floored remaining time until it expires |
| `RefreshTokens.LostCommitLetsInAgain` | services/auth-service/app/routers/auth.py:95-98 | the window is never empty: every usable token can be accepted a second time after a lost commit, from the floored remaining time on and no sooner |
| `RefreshTokens.AuthService.Login` | services/auth-service/app/routers/auth.py:68-73 | one new unrevoked row for a known user, for the TTL |
| `RefreshTokens.AuthService.Refresh` | services/auth-service/app/routers/auth.py:76-100 | refused exactly if blacklisted, unknown, revoked, expired or without user; else the row is revoked and the new token is for the same user, as far as the commits go |
| `RefreshTokens.AuthService.Logout` | services/auth-service/app/routers/auth.py:103-112 | revokes one's own unrevoked token, silently nothing else |

## Left out

- HTTP routing, request schemas beyond the positive quantity and amount, JWT, RSA, bcrypt, internal-caller headers, health, logging and request ids: wrappers without a deep invariant.
- Kafka, Redis, MariaDB and Mongo themselves: only the primitive each call gives is modelled. No consumer-group rebalancing, no broker-side produce failure, no service-mesh retries.
- The cart service, the abandonment scan and the clearing of carts after checkout: nothing flows back into an order. The basket is an input of the call.
- Metrics, failure reasons and notification texts: closed lookups. The notification handler is any handler that may fail.
- Random latency and failure rate are free choices; the polling interval is not timed.
- 32-bit column widths: amounts and stock are unbounded integers.
- The column type of `expires_at`: the model keeps microseconds, a database that rounds to seconds moves the expiry by less than one second.
- `Checkout.OrderService.CreateOrder`: the method runs with nobody in between, since Dafny methods do not interleave; concurrent calls are the subject of `Saga`, to which each of its statements is tied. It assumes that no other call has an uncommitted insert under its key, on which the database would make it wait.
- `Checkout.OrderService.PlaceOrder`: the same assumption; `SagaTheorems.OneOrderPerKey` covers the calls that wait.
- `Checkout.OrderService.ReconcilePass`: takes as a precondition that stuck orders belong to ended sagas and that no other pass is at them, which the code does not check; `SagaWitnesses` shows what happens otherwise.
- `Checkout.OrderService.ReconcileOrder`: the same precondition, for one order.
- `Checkout.OrderService.ReconcileIfStuck`: the same precondition, for one order.
- `Checkout.OrderService.DeliverOrder`: assumes that no other pass is at the order unless passes may overlap, and runs from its select to its event without another in between; passes that interleave are the subject of `Saga`.
- `Checkout.OrderService.DeliveryPass`: the same assumption, for every due order.
- `PaymentCell.Store.Charge`: what a waiting caller's polls read is a parameter, since other callers write the key meanwhile; `PaymentCell.RepliesAgree` covers those runs.
- `ConsumerProcess.Process.Drain`: no commit raises and nothing crashes during it; runs with those are covered by the machine.
- `Reviews.ReviewsAreVerified`: about the reviewed user and product; the order id stored with a review may be chosen by the caller, as in the code.
- Concurrent presentations of one refresh token: only serial requests are modelled.
