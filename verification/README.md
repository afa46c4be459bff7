# Verification of the analytics service

The analytics service consumes order and payment events at least once and adds them
up in day-grained Mongo collections without a transaction. This project models the
parts where that is delicate and proves what they keep:

* **The consumer protocol** (`Protocol*.dfy`). Any number of workers, on any number of
  replicas, share the `event_ids` rows, the collections and the broker's queues. Every
  broker operation, every single store write and every crash is one atomic action, a
  write may fail without landing (`Lost`) or fail although it landed (`Torn`), and a run
  is any sequence of actions. The invariant separates the two roles of an `event_ids`
  row: a lock while a handler runs, a commit record afterwards (`ProtocolSafety.dfy`,
  `ProtocolProgress.dfy`). The counters of every reachable state are accounted for write
  by write (`ProtocolCounters.dfy`, `ProtocolAccounting.dfy`, `ProtocolRepeats.dfy`), and
  the log of landed writes shows which counters bound which (`ProtocolLog.dfy`,
  `ProtocolDominance.dfy`). `ProtocolRecovery.dfy` says which events can still complete,
  `LostConnections.dfy` which can when broker connections die under running handlers,
  `ProtocolRefinement.dfy` and `ProtocolOrder.dfy` when concurrent handling equals
  handling one event after another.
* **The service, its repositories and the consumer as classes** (`Repositories.dfy`,
  `Service.dfy`, `Consumer.dfy`). Mutable collections, handlers that stop at the first
  failed call, dedupe, dispatch and settlement, each proved against a specification that
  takes the fate of every store operation, and besides against statements in the
  sources' own fields that do not go through that specification (`Effects.dfy`: what each
  event adds to which fields of which rows; written-out contracts for dedupe, paging,
  range queries and permissions). `ConsumerRefinement.dfy` and
  `ConsumerRuns.dfy` prove that every call of `HandleMessage` is a run of one worker of
  the protocol, so the protocol's guarantees hold of the classes.
* **Whole runs** (`Aggregates.dfy`, `Runs.dfy`, `Convergence.dfy`, `Laws.dfy`). Every
  counter is a closed-form sum over the history of events; from it follow confluence and
  conservation between collections.
* **The permission cache** (`RbacCache.dfy`, `CacheRaces.dfy`, `CacheFleet.dfy`): the
  class and the middleware decision, a timed transition system in which map read, clock
  check, fetch, store and invalidation interleave freely, and several replicas of it of
  which one receives an invalidation.
* **The backfill job** (`Backfill.dfy`, `BackfillLaws.dfy`): pages, orders, ledger, its
  own dedupe namespace, and any mixture of live deliveries and backfilled orders.
* **Reports** (`Queries.dfy`, `Averages.dfy`, `Reports.dfy`, `ReportLaws.dfy`,
  `ReportTruth.dfy`, `FailureRates.dfy`, `Calendar.dfy`): range queries, the summary by currency, averages
  and their rounding, when failure rates are fractions, the active-restaurant count, what
  every figure of every report line is over the events handled, and the printed day keys.

`Events.dfy`, `Folds.dfy` and `Sums.dfy` hold the shared vocabulary. Amounts, counters
and instants (nanoseconds) are mathematical integers; a day is the number of its UTC day
(`Calendar` shows that the printed keys are in one-to-one, order-preserving
correspondence with these numbers); Go's truncating division is written out as
`TruncDiv`; rates are reals.

## Where code and documentation disagree

The model follows the code.

* `README.md:602-604` says replaying events, even out of order, always converges to the
  same totals. It does exactly when no delivered or rejected event is handled before its
  order's placed event: `Convergence.ConvergesExactlyWhenCausal` and
  `Convergence.ReplayConvergesExactly` are equivalences, and
  `Convergence.DeliveredBeforePlacedIsLost` is a run that does not converge.
* `lib/coreevents/payloads.go:23-28` calls handlers safe to repeat because of `$inc`;
  `app/analytics/service/analytics.service.go:83-89` says a replay can double-count. The
  second is right. `ProtocolRepeats.CountedOnceExactly`: in every reachable state the
  counters are the completed events' shares if and only if no failed attempt and no
  running handler has landed a write. `ProtocolRepeats.ReplayDoubleCounts` is, for every
  order.placed event, a run whose replay counts the order twice for its restaurant.
* `app/analytics/dto/failures.response.go:6` and
  `app/analytics/dto/platform_summary.response.go:6` document the failure rate as a
  fraction between 0 and 1. `FailureRates.MidnightRate` is a run where it is 2.
  `FailureRates.RateIsFractionExactly` is an equivalence for every rate in every reachable
  state, `FailureRates.HistoryRateIsFractionExactly` the same read off the events, and
  `FailureRates.SameDayRatesAreFractions` and
  `FailureRates.SameDayPlatformRatesAreFractions` hold whenever orders are rejected on the
  day they were placed. Up to any day, the cumulative platform rejections stay within the
  orders as long as no order is rejected twice or before it was placed
  (`ProtocolDominance.CumulativeRejectionsWithinOrders`).
* `README.md:618-621` says changed permissions take effect on the next request after an
  invalidation. In the process that receives the message this holds if and only if no
  fetch for the role was in flight (`CacheRaces.FreshExactlyWhenNoneInFlight`). All
  replicas consume one queue (`lib/config/env.go:44`, `lib/boot/boot.go:117-124`), so the
  others receive nothing: such a replica answers freshly if and only if it has, besides,
  no live entry for the role, and otherwise keeps that entry until its ttl
  (`CacheFleet.OneReplicaHears`).
* `docs/system-design.md:103` says a failed event can always be retried from the DLQ. From
  every reachable state an event with a handler can be completed, by ordinary operation
  and replays, if and only if its `event_ids` row is not stuck
  (`ProtocolRecovery.CompletesExactlyWhenNotStuck`): a row that nobody holds and that
  marks nothing done (`ProtocolSafety.StuckMeansAbandoned`), left by a crash, a lost
  Unmark, or an insert that landed although MarkSeen reported an error
  (`ProtocolSafety.StuckTakesAFault`). `ProtocolRecovery.ReplayIsLost` is, for every
  event, a run whose replay is acknowledged unread. When a connection dies under a
  running handler an event can be lost without a stuck row and without reaching the DLQ:
  `LostConnections.EventVanishes` is a run, and
  `LostConnections.CompletesExactlyWhenHopeIsLeft` says exactly when.

## Model

| member | source | states |
|---|---|---|
| ProtocolSafety.RunKeepsLocks | lib/coreevents/consumer.go:81-108 | in every reachable state the rows split into those held by exactly one worker and those closed for good; the invariant behind the next rows |
| ProtocolSafety.AtMostOnce | lib/coreevents/consumer.go:81-108 | under all interleavings, duplicates, store failures, crashes and replays: at most one worker inside a handler per event, none for a completed event, at most one completion per event, and the row of a completed event stays |
| ProtocolSafety.NoSilentLoss | lib/coreevents/consumer.go:70-109 | with a dead-letter exchange, a published event of a handled type has completed, or is queued, dead-lettered or in a worker's hands, or its row is stuck |
| ProtocolSafety.StuckMeansAbandoned | lib/coreevents/consumer.go:81-108 | in every reachable state an event is stuck exactly when its row exists, no worker holds it, and the event neither completed nor was skipped: nobody will ever remove the row |
| ProtocolSafety.StuckTakesAFault | lib/coreevents/consumer.go:102-104 | every event stuck in a reachable state became so at one step of the run, and that step was a crash of a worker holding its row, an Unmark that kept it or a MarkSeen that failed after inserting it |
| ProtocolSafety.OneSettlementPerDelivery | lib/coreevents/consumer.go:70-109 | deliveries equal settlements plus crashes plus messages still in hand: exactly one Ack or Nack per delivery that does not crash |
| ProtocolProgress.OwnActionsRunOut | lib/coreevents/consumer.go:70-109 | in any run between a delivery and its settlement, whatever the others do and whatever fails, a worker takes at most as many effective actions of its own as its rank at the delivery, a number read off the message |
| ProtocolProgress.RankAtDelivery | lib/coreevents/consumer.go:70-109 | that number is at most twelve, and one more for each line item of an order |
| ProtocolProgress.NeverBlocked | lib/coreevents/consumer.go:70-109 | a worker with a message always has an effective action of its own, and one that does not need a failure |
| ProtocolRecovery.CompletesExactlyWhenNotStuck | docs/system-design.md:103 | from every reachable state, an event that has a handler can be completed by fault-free actions and replays alone if and only if its row is not stuck; once it is, no continuation of any kind completes it |
| ProtocolRecovery.ReplayIsLost | lib/coreevents/consumer.go:81-108 | for every event: its handler fails, the Unmark is lost, it is dead-lettered and replayed, and the replay is acknowledged unread, with all queues empty and the event never to complete |
| LostConnections.RunKeepsLocksAndBooks | pkg/messaging/amqp.go:134-144 | with connections lost at any moment, handlers running on and their messages redelivered meanwhile: in every reachable state the rows keep their two roles, handler runs land their writes in call order, and every counter is the sum of what they landed |
| LostConnections.CompletesExactlyWhenHopeIsLeft | pkg/messaging/amqp.go:134-144 | from every such state, an event that has a handler can be completed by fault-free actions, restarts and replays if and only if its row is not stuck and it is not hopeless, that is, a message of it is with the broker, or a worker has one that it can still handle or hand back; when stuck, or hopeless with no Ack of it pending, no continuation completes it unless it is published again |
| LostConnections.NoneHopelessWhileConnected | pkg/messaging/amqp.go:134-144 | without lost connections these are the runs of the protocol and no event is hopeless unless stuck |
| LostConnections.EventVanishes | lib/coreevents/consumer.go:81-108 | for every event: its handler's connection dies, the second copy is acknowledged as a duplicate, the handler fails and unmarks; the event is then in no queue and no hands, without a row, neither completed nor stuck, and nothing but a new publication completes it |
| ProtocolCounters.RunKeepsCounters | app/analytics/service/analytics.service.go:90-178 | in every reachable state handler runs land their writes in call order, none twice, and every counter is the sum of what all attempts and running handlers landed |
| ProtocolAccounting.SuccessLandsItsShare | app/analytics/service/analytics.service.go:90-178 | a successful handler run, its bulk call in any order, adds exactly the share computed from its event |
| ProtocolAccounting.EveryCounterIsAccountedFor | app/analytics/service/analytics.service.go:83-89 | every counter in every reachable state is the shares of the completed events, each once, plus what failed attempts landed, plus what running handlers landed |
| ProtocolAccounting.OverCountIsFailures | app/analytics/service/analytics.service.go:83-89 | for every event id and write in every reachable state: it has landed once for the completed run if that run's plan has it, once for each failed attempt that landed it, and once if a handler running now has; equal events under other ids are counted apart |
| ProtocolAccounting.EarlierCallsLandMoreOften | app/analytics/service/analytics.service.go:93-105 | for each event, restaurant writes landed at least as often as branch writes, those as each product line, those as platform, those as context, mid-handler and under all failures |
| ProtocolAccounting.TotalsInOrder | app/analytics/service/analytics.service.go:93-166 | in every reachable state and over any days, restaurant totals of orders, deliveries and rejections are at least the branch totals, those at least the platform totals |
| ProtocolAccounting.ContextImpliesAggregates | app/analytics/service/analytics.service.go:93-105 | an order_context row implies an order.placed attempt with its currency and instant that landed all its aggregate writes |
| ProtocolRepeats.CountedOnceExactly | lib/coreevents/payloads.go:23-28 | in every reachable state, each counter is the sum of the completed events' shares, once each, if and only if no failed attempt and no running handler has landed a write |
| ProtocolRepeats.ReplayDoubleCounts | app/analytics/service/analytics.service.go:83-89 | for every order.placed event, a run that fails between its restaurant and its branch write and whose replay succeeds: completed once, counted twice for the restaurant with twice its total, once for the branch and the platform |
| ProtocolLog.LoggedAfterPlaced | app/analytics/service/analytics.service.go:115-167 | in every reachable state a landed write is one that its event and the looked-up context call for, and if a context was found, an order.placed of that order, currency and instant had landed all its writes |
| ProtocolDominance.DeliveredWithinPlaced | app/analytics/service/analytics.service.go:126-139 | in every reachable state, failed and running handlers included, with each order's delivery landed at most once in a collection and naming the restaurant and branch of its order, no restaurant or branch row, and no platform date over its currencies, counts more deliveries than orders |
| ProtocolDominance.CumulativeRejectionsWithinOrders | app/analytics/service/analytics.service.go:147-167 | in every reachable state, if each order's rejection landed at most once on the platform and on no day before its placement, the platform's rejections up to any day are at most its orders, per currency |
| ProtocolOrder.InterleavingIsSequential | lib/coreevents/consumer.go:81-108 | any interleaving in which no failed handler landed a write and none is running equals, in every counter and context row, handling the completed events one by one in some order h; each finds in h the context its handler found, and at every instant of the run a first part of h has all events completed by then and besides only events whose handlers had looked up and were under way; conflicting events of one order included |
| ProtocolRefinement.CompletionOrderExplains | lib/coreevents/consumer.go:81-108 | if moreover all published order.placed events of one order agree in currency and instant, the order of completion is such an order |
| ProtocolRefinement.DrainedRun | lib/coreevents/consumer.go:81-108 | a drained run without failed handlers has completed every event once, and, the published order.placed events of each order agreeing, its counters are the order-independent ones if and only if completion order was causal |
| Runs.PlanShare | app/analytics/service/analytics.service.go:90-178 | the writes of a handler add up to a share read off its event and its context lookup |
| Runs.RunReads | app/analytics/service/analytics.service.go:90-178 | after any failure-free run every counter, and every total over a collection, is the closed-form sum of shares, platform rejections and all deliveries counting only on a context hit |
| Runs.RunContexts | app/analytics/repository/order_context.repo.go:25-53 | the context rows of a run are what the latest order.placed of each order carried |
| Runs.ContextOrigin | app/analytics/repository/order_context.repo.go:25-53 | a row exists exactly when an order.placed of that order was handled, and holds what one carried |
| Aggregates.ApplyReads | app/analytics/repository/restaurant_day.repo.go:29-45 | every `$inc` upsert, into any collection, adds its own amount to every counter and every total, whatever the rows |
| Aggregates.AnyOrderReads | app/analytics/repository/restaurant_day.repo.go:47-50 | writes commute: any permutation leaves the same counters |
| Convergence.ConvergesExactlyWhenCausal | app/analytics/service/analytics.service.go:115-178 | all counters end at their order-independent values if and only if no delivered or rejected event ran ahead of its placed event |
| Convergence.Confluence | app/analytics/service/analytics.service.go:90-178 | two causal orders of the same events agree on every counter of the four collections and on every context row |
| Convergence.ReplayConvergesExactly | README.md:602-604 | given one causal order, another order of the same events agrees with it if and only if it is causal too |
| Convergence.EarlyLoses | app/analytics/service/analytics.service.go:120-124 | an event that ran ahead leaves a named platform counter strictly below its order-independent value |
| Convergence.DeliveredBeforePlacedIsLost | app/analytics/service/analytics.service.go:108-114 | a concrete reordering that ends with a different counter |
| Laws.OrderTotalsAgree | app/analytics/service/analytics.service.go:90-139 | orders, revenue and delivery totals over any days agree between restaurants, branches and platform |
| Laws.RejectionTotals | app/analytics/service/analytics.service.go:141-167 | restaurant and branch rejections agree and exceed the platform's by the rejections that missed their context |
| Laws.ProductTotals | app/analytics/repository/product_day.repo.go:27-60 | product quantities and revenue are the sums of the line items of the orders placed |
| Laws.PaymentsStayOnPlatform | app/analytics/service/analytics.service.go:169-178 | a payment changes no counter but the two platform payment counters |
| Repositories.RestaurantDayRepo.Upsert | app/analytics/repository/restaurant_day.repo.go:29-45 | one row gains the change's amounts, the others stay, unless the write was lost |
| Repositories.BranchDayRepo.Upsert | app/analytics/repository/branch_day.repo.go:25-43 | likewise for branches |
| Repositories.PlatformDayRepo.Upsert | app/analytics/repository/platform_day.repo.go:22-37 | likewise for dates and currencies |
| Repositories.PlatformDayRepo.ApplyPaymentCompleted | app/analytics/repository/platform_day.repo.go:65-70 | only the payment counters of one row change |
| Repositories.ProductDayRepo.ApplyOrderPlacedItems | app/analytics/repository/product_day.repo.go:27-60 | every line item is tried even if another fails, repeated products accumulate, an empty order makes no call |
| Repositories.OrderContextRepo.Save | app/analytics/repository/order_context.repo.go:25-37 | the row of the order is overwritten |
| Repositories.OrderContextRepo.Find | app/analytics/repository/order_context.repo.go:43-53 | a hit gives the row, a miss is an answer and not an error |
| Repositories.EventIdsRepo.MarkSeen | app/analytics/repository/event_ids.repo.go:26-35 | inserts if absent; fresh exactly when the row was absent and the store answered |
| Repositories.EventIdsRepo.Unmark | app/analytics/repository/event_ids.repo.go:40-43 | removes the row unless the delete was lost |
| Repositories.RestaurantDayRepo.FindByDateRange | app/analytics/repository/restaurant_day.repo.go:119-136 | exactly the rows of the restaurant with from <= day <= to, the days ascending |
| Repositories.ProductDayRepo.FindByDateRange | app/analytics/repository/product_day.repo.go:62-82 | likewise for the rows of a branch and product |
| Repositories.PlatformDayRepo.FindByDateRange | app/analytics/repository/platform_day.repo.go:72-91 | likewise for the dates of the platform, by currency within a date |
| Repositories.RestaurantDayRepo.CountActiveInRange | app/analytics/repository/restaurant_day.repo.go:88-114 | the number of distinct restaurants that have a row with from <= day <= to and an order |
| Repositories.PlatformDayRepo.SummaryByCurrency | app/analytics/repository/platform_day.repo.go:96-125 | one line for exactly the currencies that have a row with from <= day <= to, ascending, each counter the total over those rows |
| Service.AnalyticsService.OnOrderPlaced | app/analytics/service/analytics.service.go:90-106 | whatever each store operation's fate, the stores and the error are those of the ordered calls stopping at the first failure; on success the restaurant, branch and currency rows of the UTC day of placement gained one order and its total, each product what its line items add up to, the rows' currency and the order's context are set, and nothing else changed; before that a failed call leaves all later collections alone |
| Service.AnalyticsService.OnOrderDelivered | app/analytics/service/analytics.service.go:115-139 | likewise, after the context lookup: a miss writes nothing and succeeds; otherwise the three rows of the placement day gained one delivery and the whole milliseconds since placement, none if delivery comes first |
| Service.AnalyticsService.OnOrderRejected | app/analytics/service/analytics.service.go:147-167 | likewise, on the day of the rejection, the lookup between the branch and the platform write, which needs its currency |
| Service.AnalyticsService.OnPaymentCompleted | app/analytics/service/analytics.service.go:175-178 | likewise, the payment counters of one platform row |
| Service.PlacedOutcome | app/analytics/service/analytics.service.go:90-106 | the specification of the placed handler has the effect just described, field by field |
| Service.DeliveredOutcome | app/analytics/service/analytics.service.go:115-139 | likewise for delivered events |
| Service.RejectedOutcome | app/analytics/service/analytics.service.go:147-167 | likewise for rejected events |
| Effects.ProductWrites | app/analytics/repository/product_day.repo.go:27-60 | a bulk call adds to each product row the quantities and totals of all line items of that product, repeated ones included, sets its currency and leaves every other row |
| Effects.UtcDayHolds | app/analytics/service/analytics.service.go:91 | the day of an instant is the 24 hours of nanoseconds that hold it |
| Service.BulkLands | app/analytics/repository/product_day.repo.go:58-59 | the repository's bulk call is the sequence of the surviving product writes |
| Consumer.EventConsumer.Register | lib/coreevents/consumer.go:53-58 | a type is registered once; a second registration fails and changes nothing |
| Consumer.EventConsumer.RegisterAll | app/analytics/eventhandlers/handlers.go:68-73 | from no handlers, exactly the four event types are registered, each with its own handler |
| Consumer.EventConsumer.RunHandler | app/analytics/eventhandlers/handlers.go:75-169 | a payload whose type or instant the handler cannot read fails before any write; on success the fields of the payload are counted for the restaurant, branch, currency, products and day it names; without store failures a readable payload succeeds |
| Consumer.EventConsumer.HandleMessage | lib/coreevents/consumer.go:70-109 | for every body, registry and combination of store failures: a body without id or type is dead-lettered untouched; a failed insert is requeued; a message whose event id has a row is acknowledged unread; a new id of no handler is marked and acknowledged; otherwise the id is marked and the payload counted, or the handler fails, the row of that id is removed and the message dead-lettered |
| Consumer.EventConsumer.Consume | pkg/messaging/amqp.go:134-144 | deliveries are handled one at a time, each on what the last one left |
| ConsumerLaws.ServeWithoutFaults | app/analytics/service/analytics.service.go:90-178 | the step-by-step handlers refine the one-step handler of the run laws |
| ConsumerLaws.ConsumingIsRunningFirstOccurrences | lib/coreevents/consumer.go:81-108 | without store failures, consuming any delivery list is the plain run over first occurrences |
| ConsumerLaws.ConsumedReads | lib/coreevents/consumer.go:81-108 | and every counter is then the closed-form sum over that history |
| ConsumerLaws.EachIdOnce | lib/coreevents/consumer.go:81-108 | over deliveries without store failures, of registered types and readable, exactly their event ids are marked and as many events are handled as there are distinct event ids |
| ConsumerLaws.EachOrderIdCountsOnce | lib/coreevents/consumer.go:81-108 | if they are orders, the platform's order counts add up to the number of distinct event ids |
| ConsumerRefinement.MessageLeads | lib/coreevents/consumer.go:70-109 | every call of HandleMessage, whatever its store operations meet, stays in every set of states that a protocol worker cannot leave, and ends in that worker's settling state |
| ConsumerRuns.ConsumingIsARun | lib/coreevents/consumer.go:70-109 | the stores after any delivery list are those of a reachable protocol state |
| ConsumerRuns.ConsumedTotalsInOrder | app/analytics/service/analytics.service.go:93-166 | so, failures or not, the consumer's restaurant totals are at least the branch totals, those at least the platform totals |
| RbacCache.HasPermission | lib/rbac/cache.go:69-76 | the scan finds the permission exactly when it is listed |
| RbacCache.Cache.GetPermissions | lib/rbac/cache.go:37-54 | a list cached less than ttl ago is returned and nothing changes; else the fetched list is cached at the storing instant and returned; a failed fetch changes nothing |
| RbacCache.Cache.Invalidate | lib/rbac/cache.go:59-67 | keeps exactly the entries of other roles, none if no role is given |
| RbacCache.Cache.Require | lib/rbac/middleware.go:28-61 | passes a system_admin, or a restaurant_user whose list holds the permission; without a list it is unavailable, without claims unauthenticated, otherwise forbidden |
| CacheRaces.RunKeepsValid | lib/rbac/cache.go:37-54 | under every interleaving each entry is what the source held during its fetch |
| CacheRaces.StalenessIsBounded | lib/rbac/cache.go:37-54 | if no fetch took longer than D, a hit at t answers with a list the source held later than t - ttl - D |
| CacheRaces.StalenessIsTight | lib/rbac/cache.go:37-54 | for every ttl and D a run attains that bound |
| CacheRaces.OlderFetchWins | lib/rbac/cache.go:45-53 | an older fetch can overwrite a newer entry, and a later hit then answers with the older list |
| CacheRaces.StoredAfterInvalidate | lib/rbac/cache.go:59-67 | a request that reads the map after an invalidation is answered from a fetch stored after it |
| CacheRaces.FreshExactlyWhenNoneInFlight | lib/rbac/cache.go:37-67 | in one process, all later requests of the role are answered from fetches started after the invalidation if and only if none was in flight |
| CacheRaces.EntryChanges | lib/rbac/cache.go:37-67 | an entry changes only by storing a fetch for its role or by an invalidation that covers it |
| CacheRaces.LoneCallKeepsContract | lib/rbac/cache.go:37-54 | a call that nothing interleaves with has the effect the class contract states |
| CacheFleet.FreshExactlyWhenNothingHeld | lib/rbac/cache.go:37-54 | from any reachable state on, without an invalidation, all later requests of a role are answered from later fetches if and only if no fetch for it is in flight and no live entry is held |
| CacheFleet.OneReplicaHears | lib/boot/boot.go:117-124 | in every reachable state of any number of replicas, once an invalidation reaches one of them, any replica answers freshly from then on if and only if it has no fetch for the role in flight and, unless it is the one reached, holds no live entry |
| Backfill.BackfillJob.Run | cmd/backfill-aggs/main.go:139-216 | stores, ledger, exit code and cursors for every sequence of page answers and store failures; every page before the last one asked for came, has more and names the next cursor, without a fatal exit the last one came and has no more or no cursor, and fetched is the sum of these pages' sizes; a dry run writes nothing and is fatal only for a missing page; without a fatal exit fetched = applied + skipped + failed |
| Backfill.BackfillJob.BackfillOrder | cmd/backfill-aggs/main.go:158-199 | one order is handled as a message of the consumer in its own namespace, except that a failed dedupe check is fatal: its prefixed id marked means skipped, its fields counted means applied and marked, anything else failed with the row removed |
| Backfill.LedgerBalances | cmd/backfill-aggs/main.go:150-199 | every order handled is counted once as applied, skipped or failed |
| BackfillLaws.BackfillFoldsNewOrders | cmd/backfill-aggs/main.go:152-200 | without store failures the stores grow by the fold of OnOrderPlaced over the distinct orders not yet marked, and applied counts them |
| BackfillLaws.SecondRunAddsNothing | cmd/backfill-aggs/main.go:158-166 | a second run over any of the same orders adds nothing |
| BackfillLaws.OncePerNamespace | cmd/backfill-aggs/main.go:158 | for every interleaving of live deliveries and backfilled orders without store failures: the events handled are the first occurrences of the live feed plus the distinct orders of the history, an order placed live and in the history counting once for each, and every counter is the closed-form sum over them in the order they came |
| BackfillLaws.LiveThenBackfill | cmd/backfill-aggs/main.go:158 | and a backfill after the live events adds every order of its history once more, whether or not it was counted live |
| Queries.Find | app/analytics/repository/restaurant_day.repo.go:119-136 | exactly the picked rows in strictly increasing key order |
| Queries.AnswerIsUnique | app/analytics/repository/restaurant_day.repo.go:119-136 | that answer is unique |
| Queries.SummaryFoldsRange | app/analytics/repository/platform_day.repo.go:96-125 | the summary is the per-currency fold of the range query |
| Queries.SummarySplits | app/analytics/repository/platform_day.repo.go:96-125 | over two adjacent parts of a range the whole has a line for exactly the currencies of the parts, and its lines are the sums of theirs |
| ReportLaws.ReachableRowsAreSound | app/analytics/service/analytics.service.go:126-129 | in every reachable state a row without orders has no revenue, and no duration total is negative |
| ReportLaws.SummaryAverageBetween | app/analytics/service/analytics.service.go:347-352 | a currency's average lies between the least and the greatest of its day averages, truncation included |
| ReportLaws.SummaryRoundingLoss | app/analytics/service/analytics.service.go:317-334 | rebuilding a currency's revenue from its day averages loses less than one unit per order |
| ReportLaws.DeliveryAverageBetween | app/analytics/service/analytics.service.go:394-408 | in every reachable state the average delivery time of any row or set of rows is not negative and lies between the shortest and the longest duration that landed in it, those of failed and running handlers included |
| FailureRates.RateIsFractionExactly | app/analytics/dto/failures.response.go:6 | in every reachable state and for any row or set of rows where each order's placement and rejection landed at most once, the rate is between 0 and 1 if and only if there are no orders or the rejections of orders placed elsewhere are at most the orders not rejected there |
| FailureRates.HistoryRateIsFractionExactly | app/analytics/service/analytics.service.go:377-392 | the same equivalence after any history with at most one placed and one rejected event per order, read off the events |
| FailureRates.SameDayRatesAreFractions | app/analytics/service/analytics.service.go:377-392 | if every order is rejected at most once, by its restaurant and on its UTC day, every restaurant row's rate is between 0 and 1, in whatever order the events came |
| FailureRates.SameDayPlatformRatesAreFractions | app/analytics/service/analytics.service.go:353-367 | if every order is rejected at most once and never on another UTC day than it was placed, the rate of every platform row and every summary line is between 0 and 1 |
| FailureRates.MidnightRate | app/analytics/service/analytics.service.go:377-392 | a run across midnight after which the only rate of a restaurant's day, and of the platform's, is 2 |
| ReportLaws.ActiveMeansPlaced | app/analytics/repository/restaurant_day.repo.go:88-114 | after any run the active restaurants are those with an order placed in range |
| Averages.AverageBetween | app/analytics/service/analytics.service.go:347-361 | the truncated average of a whole lies between the truncated averages of its parts, for amounts of any sign |
| Reports.Reader.GetRestaurantDays | app/analytics/service/analytics.service.go:182-207 | an inverted range is refused, a store error passed on, else one line per row with from <= day <= to, the days ascending, with its average rounded toward zero |
| Reports.Reader.GetBranchDays | app/analytics/service/analytics.service.go:210-235 | likewise for a branch |
| Reports.Reader.GetProductDays | app/analytics/service/analytics.service.go:239-264 | likewise for a product, the average over quantities |
| Reports.Reader.GetRestaurantFailures | app/analytics/service/analytics.service.go:269-279 | likewise, with the rate rejections by orders |
| Reports.Reader.GetRestaurantDeliveryAvg | app/analytics/service/analytics.service.go:283-293 | likewise, with the average duration |
| Reports.Reader.GetActiveRestaurants | app/analytics/service/analytics.service.go:297-302 | the count behind the guard |
| Reports.Reader.GetPlatformDays | app/analytics/service/analytics.service.go:307-332 | one line per date and currency |
| Reports.Reader.GetPlatformSummary | app/analytics/service/analytics.service.go:337-375 | one line per currency with every derived field |
| ReportTruth.RestaurantLine | app/analytics/service/analytics.service.go:182-207 | in a report after any history, a restaurant's line counts the orders it placed that day and their totals, with the average rounded toward zero |
| ReportTruth.BranchLine | app/analytics/service/analytics.service.go:210-235 | likewise for a branch |
| ReportTruth.ProductLineTells | app/analytics/service/analytics.service.go:239-264 | likewise the quantities and totals of a product's line items |
| ReportTruth.FailureLineTells | app/analytics/service/analytics.service.go:269-279 | orders, rejections of that day, and their quotient |
| ReportTruth.DeliveryLineTells | app/analytics/service/analytics.service.go:283-293 | the deliveries whose known placement was on that day |
| ReportTruth.PlatformLineTells | app/analytics/service/analytics.service.go:307-332 | likewise per date and currency |
| ReportTruth.SummaryTells | app/analytics/service/analytics.service.go:337-375 | per currency over the range: orders, revenue, rejections and deliveries with a known order, payments and their amounts, rate and average |
| Calendar.KeysInOrder | app/analytics/service/analytics.service.go:91 | for years 0 to 9999 the printed day keys are one-to-one with days and ordered as they are |
| Calendar.KeyIsSpelled | app/analytics/service/analytics.service.go:91 | the key reads YYYY-MM-DD, digit by digit |
| Calendar.MonthsStart | app/analytics/service/analytics.service.go:91 | how many days of a year, leap or not, come before each month |
| Calendar.StringFilterIsRange | app/analytics/repository/restaurant_day.repo.go:120-123 | the string guard refuses exactly the empty ranges and the string filter selects exactly the instants of the inclusive range of UTC days |
| Calendar.DateIsNumbered | app/analytics/service/analytics.service.go:91 | the n-th successor of a date in the Gregorian calendar is the date with that closed-form number, counted from 1970-01-01 |

## Left out

- TTL reaping of `event_ids` and `order_context`: nothing expires during a run. A reaped row would let an event be applied again, or an order's later events miss.
- Last-writer fields: the `currency` of restaurant, branch and product rows is kept by the writes but not claimed to be independent of order, as `docs/api-contracts.md:90-93` says; `updated_at` and `recorded_at` are not modelled.
- BSON's truncation of `placed_at` to milliseconds and int64 overflow: instants are exact and integers unbounded.
- JSON, RFC 3339 and envelope parsing: a body is taken as unreadable or as its decoded fields, per handler.
- The Mongo driver and the AMQP adapter: only atomic single-document writes, queues, redelivery, dead-lettering and lost connections remain. A store read may fail but is otherwise of the current state.
- The second consumer for `rbac.permissions_changed`: its one effect on the cache is the action `Invalidate`.
- JWT and API-key checks, validation tags, controllers, envelopes, logging, configuration, boot and HTTP retries: plumbing.
- The server's paging: the backfill is given the answers to its fetches, and a fetch beyond them counts as failed; an endless history is not modelled.
- Floating point: rates are exact reals.
- Repositories.ProductDayRepo.BulkWrite: tries the line items in order, where the store may take any; the counters are the same by Aggregates.AnyOrderReads, and the protocol lets them land in any order.
- ProtocolSafety.NoSilentLoss: is about runs in which a worker loses its connection only by crashing, LostConnections about the others; and it is a safety statement: that a queued message is eventually delivered is left to the broker. ProtocolProgress bounds what happens after a delivery, and ProtocolRecovery shows that a completing continuation exists.
- Clock skew between replicas: CacheFleet gives all of them one clock.
- FailureRates.SameDayRatesAreFractions: speaks of restaurant rows and its partner of platform rows, where rates are reported; branch rows carry none.
