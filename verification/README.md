# TicketHub, modelled and proved

TicketHub sells tickets: a purchase locks seats in Redis, an event creates the order row, the
buyer pays or the order expires, and order tables are migrated between shards while all of this
goes on. Each of these protocols is a few small steps on shared stores. This project models them
as state machines whose actions are one Lua script, one SQL statement or transaction, one message
or one in-memory assignment, and proves what every run keeps, in every interleaving and after
every crash. Code that works on plain state (queues, repositories, routers, generators, the
outbox, the limiter) is written as classes and loops and proved against specification functions.
Submission, consumer, compensation, order commands, cancel worker and migration worker are also
written as methods. Between any two of their own actions the other processes take the steps that a
schedule holds for that point, and the contracts hold for every schedule; every execution is a run
of its state machine, so the theorems about runs apply.

| file | contents |
|---|---|
| Runs, FiniteSets, Decimals | runs of a protocol, sums over finite sets, decimal text |
| Orders, OrderRecords | order entity, status machine, insert-if-absent and compare-and-set; rows after any history of commands |
| ShardMigration, MigrationChains, MigrationProcesses | online migration of a shard, one after the other, and its worker |
| ShardMappings, OrderUsage, ShardedOrders, ShardedRepository | mapping table, usage queries, the tables of all shards, the repository that writes them |
| SeatStore, PurchaseSaga, PurchaseSafety, PurchaseBacking, PurchaseHazards, PurchaseAccounts, PurchaseMarkers, PurchaseExclusivity, PurchaseSharing, PurchaseProcesses, PurchaseUsage | from seat lock to sale, and what the usage query then counts |
| PaymentSaga | payment callbacks, late payments and refunds |
| QueryCache | the generation-guarded cache |
| DueOrder, LeaseQueue, DelayQueue, RedisDelayQueue | the delay queue, twice, against one specification |
| OrderExpiry, OrderExpiryProcesses | unpaid orders are closed |
| Idempotency, Outbox, RateLimiter | submission keys, leases on events, token buckets |
| Base64Url, Timestamps, Cursors, Pagination | page cursors and paging |
| OrderNumbers, Routing | order numbers and where they lead |

## Results that are conditions on the code

Some promises hold only under a condition. In each case the code is modelled as it is, the
condition is stated in terms of what an operator or caller can see, and a lemma shows that the
promise holds in every run if and only if the condition holds.

- Migration loses no acknowledged order iff its task id is new: saving a task over a used id keeps the old cursor and creation time. Under new ids nothing is lost however often a shard moves.
- The sale never oversells iff no release or rollback gives a reservation back again after its marker has expired and, where late events are discarded, one handler at a time works on an order's event and a discarded order is retried only while it has no row, no event and no other retry. Markers may expire at any time.
- Stock and the tickets of the orders that still hold some, each order counted once, add up to the seed iff, besides that, a retry that stopped before publishing is repeated only while its lock record is alive: later the lock script does not recognise the order and takes its tickets again.
- No two unpaid or paid orders share a seat or a ticket holder iff no key of an open order expires and, where late events are discarded, handlers are serial and retries careful. The deployed lock lives fifteen minutes, as long as an order may stay unpaid, so the code leaves no margin here. Markers do not matter for it.
- The cache is fresh iff the generation key expires only while no entry is filed under it and no reader relies on a generation; otherwise a generation number is reached twice. The condition is tight state by state: each expiry that it forbids has a stale continuation.
- Every unpaid row has a cancel check or an unacknowledged event iff a cancel delay is configured and either no delay limit is set or one handler at a time works on an event.
- The sharded usage query equals the simple one iff no migration target ever belonged to another shard, or there is only one; the mapping table itself allows such a target.
- A request key publishes once per lifetime of its result iff attempts end within the processing TTL and an attempt that published goes on to complete.
- An outbox event is sent once iff workers finish within the lease and mark what they sent; it is sent at least once in any case.
- A token bucket keeps its bound iff a minute refills it, since its key expires after a minute. For the script with its two buckets: a program keeps its bound iff that holds or its users may not buy at all, and a user keeps its bound under every limit of the program iff that holds.
- Following page cursors ends with exactly the matching orders iff every page but the last ends in an order with a positive number and a creation time other than the zero time, because a cursor at the zero time is read as no cursor.

Two places where the twins of one component differ are kept as they are: the in-memory migration
repository activates a row that is already in dual write and completes whatever shadow it finds,
which the SQL transactions refuse.

## Assumptions written as guards

- Bodies of the migration worker's Poll do not overlap; a write finishes less than 20 seconds after its mapping was fetched (15 seconds of staleness and 5 of slack); clocks are shared; order numbers are positive.
- Two tables agree on an order when its status agrees; copying keeps the creation time of a row that is already there.
- Every write of an order carries the same program, user, category, seats, ticket users and amount, and times that fit its status.
- A publish that returns an error did not publish.
- Order numbers are never reused, every virtual shard has a mapping row, and the legacy set of the Redis queue is empty.

## Model

| member | source | states |
|---|---|---|
| `Orders.OrderEntity.MarkPaid` | app/order-service/internal/domain/order/order.go:44-57 | succeeds exactly from a status that reaches PAY, sets the time once, changes nothing on conflict |
| `Orders.OrderEntity.MarkCanceled` | app/order-service/internal/domain/order/order.go:59-69 | succeeds exactly from a status that reaches CANCEL, changes nothing on conflict |
| `Orders.OrderEntity.MarkRefund` | app/order-service/internal/domain/order/order.go:71-81 | succeeds exactly from a canceled or refunded order |
| `Orders.ReachesIsPath` | app/order-service/internal/infrastructure/mysql/order_repository.go:197-206 | the order used below is exactly the existence of a path of allowed status changes |
| `Orders.StatementsAdvance` | app/order-service/internal/infrastructure/mysql/order_repository.go:159-206 | insert-if-absent and compare-and-set lose no row and move no row off its path |
| `Orders.CasRecords` | app/order-service/internal/infrastructure/mysql/order_repository.go:159-195 | the compare-and-set records status and times in the row exactly if it is the user's and may move, and touches no other column and no other row |
| `OrderRecords.TimesFitStatuses` | app/order-service/internal/domain/order/order.go:44-81 | after any history of saves, loads, marks and updates every row has a paid time iff paid, a cancel time iff canceled or refunded, a refund time iff refunded |
| `OrderRecords.RowsLast` | app/order-service/internal/infrastructure/mysql/order_repository.go:21-44 | over any history no row is lost, leaves its path, or changes a column other than status and times |
| `OrderRecords.MarkedTimeIsStored` | app/order-service/internal/application/order_command.go:97-116 | an acknowledged update stores the time of its mark, whatever others did since the row was read |
| `ShardMigration.CutoverLosesNothing` | app/migrate-service/internal/infrastructure/mysql/migration_repository.go:196-238 | in every run, once the mapping has flipped, every write ever acknowledged by any router is in the target, with the content it was written with, at its status or further |
| `ShardMigration.RowsStayIntact` | app/migrate-service/internal/infrastructure/mysql/migration_repository.go:167-186 | in every run every row of source and target is one that was written for its order: program, user, category, seats, ticket users, amount, and times that fit the status |
| `ShardMigration.TablesAgreeOnContent` | app/migrate-service/internal/infrastructure/mysql/migration_repository.go:167-186 | in every run an order in both tables has the same lasting columns in both |
| `ShardMigration.CutoverAgrees` | app/migrate-service/internal/infrastructure/mysql/migration_repository.go:135-238 | at the flip an order whose current status was acknowledged has that status and its content in source and target |
| `ShardMigration.NoPrimaryOnlyWriteDuringCopy` | app/migrate-service/internal/application/migration.go:30-53 | while the worker copies, and afterwards, no PRIMARY_ONLY snapshot of the source can still write |
| `ShardMigration.NoStragglerAfterCopyStarts` | pkg/sharding/mapping_router.go:67-75 | once the propagation delay has passed, a write under a PRIMARY_ONLY snapshot is out of time |
| `ShardMigration.TargetOnlyAdvances` | app/order-service/internal/infrastructure/mysql/sharded_order_repository.go:39-55 | before, during and after cutover no target row is lost and each moves only along its path |
| `ShardMigration.UsedTaskIdCanLose` | app/migrate-service/internal/infrastructure/mysql/migration_repository.go:73-89 | from every start with a used task id there is a run that loses an acknowledged order |
| `ShardMigration.LossFreeIffTaskIdIsNew` | app/migrate-service/internal/infrastructure/mysql/migration_repository.go:73-89 | a migration is loss-free in every run iff its task id is new |
| `MigrationChains.ChainLosesNothing` | app/migrate-service/internal/infrastructure/mysql/migration_repository.go:44-238 | over any number of migrations of one shard under new ids, at every moment every write ever acknowledged is in the current primary, with its content, at its status or further |
| `MigrationChains.AcknowledgedForGood` | app/migrate-service/internal/infrastructure/mysql/migration_repository.go:196-238 | a write acknowledged at one moment is in the primary at every later one, with the columns of every item of its order, however many cutovers lie between |
| `MigrationChains.StragglersAreStuck` | pkg/sharding/mapping_router.go:67-75 | after a cutover no write through a mapping of the old source alone can take another step |
| `MigrationProcesses.FindBatch` | app/migrate-service/internal/infrastructure/mysql/migration_repository.go:148-165 | counts and ends the block of at most batch smallest keys beyond the cursor; zero iff none is left |
| `MigrationProcesses.MigrationWorker.CopyBatch` | app/migrate-service/internal/infrastructure/mysql/migration_repository.go:135-194 | under every schedule: the cursor advances, or the source is drained, or one of its three statements failed; everything acknowledged up to the cursor is in the target, and all copied rows are intact |
| `MigrationProcesses.MigrationWorker.Poll` | app/migrate-service/internal/application/migration.go:36-70 | under every schedule and failure: idle exactly without an open task, early exactly within the propagation delay, completes only with every acknowledged write in the target, and on an error pauses the task unless pausing fails too |
| `ShardMappings.MappingsStaySeparate` | app/migrate-service/internal/infrastructure/mysql/migration_repository.go:44-72 | in every run of either repository primary and shadow tables of different shards stay different |
| `ShardMappings.MigrationRepository.SaveTask` | app/migrate-service/internal/infrastructure/memory/migration_repository.go:29-60 | refused exactly if the target is taken or no row matches; else the matching row goes to dual write |
| `ShardMappings.MigrationRepository.LoadNextTask` | app/migrate-service/internal/infrastructure/memory/migration_repository.go:62-79 | returns the smallest id among open tasks, marked running |
| `ShardMappings.MigrationRepository.CompleteTask` | app/migrate-service/internal/infrastructure/memory/migration_repository.go:85-105 | succeeds exactly if a dual-write row exists, whose shadow becomes the primary |
| `ShardMappings.MigrationRepository.FailTask` | app/migrate-service/internal/infrastructure/memory/migration_repository.go:107-118 | pauses a known task, else changes nothing |
| `ShardMappings.MigrationRepository.ResumeTask` | app/migrate-service/internal/infrastructure/memory/migration_repository.go:120-131 | exactly the stopped, unfinished tasks become running, with everything else kept |
| `OrderUsage.ListInventoryUsageSimple` | app/order-service/internal/infrastructure/memory/order_repository.go:18-36 | one pass gives, per category with a counted order, the sum of its tickets |
| `OrderUsage.UniqueLocations` | app/order-service/internal/infrastructure/mysql/sharded_order_repository.go:315-327 | keeps one location per key, and on proper names exactly the first occurrences |
| `OrderUsage.ListInventoryUsage` | app/order-service/internal/infrastructure/mysql/sharded_order_repository.go:82-108 | fails exactly if a location does not resolve, else lists by category the sum over the distinct tables |
| `OrderUsage.UsageOfUnion` | app/order-service/internal/infrastructure/mysql/sharded_order_repository.go:220-253 | the usage of tables without a common order is the sum of their usages |
| `OrderUsage.SeenKeyInjective` | app/order-service/internal/infrastructure/mysql/sharded_order_repository.go:93-98 | the text key of a proper table is shared by no other table |
| `OrderUsage.SumIsUsage` | app/order-service/internal/infrastructure/mysql/sharded_order_repository.go:82-108 | if no order lies in two tables the sharded query equals the simple one over all orders |
| `ShardedOrders.UsageStaysExact` | app/order-service/internal/infrastructure/mysql/sharded_order_repository.go:82-108 | in every run with clean targets, dual write included and for stale snapshots too, the sharded usage is the simple one |
| `ShardedOrders.LookupInSnapshot` | pkg/sharding/mapping_router.go:103-116 | an order is found in the table of its own shard and in no other of the list |
| `ShardedOrders.StatementRefines` | app/order-service/internal/infrastructure/mysql/sharded_order_repository.go:27-55 | a statement on an order's primary is that statement on one logical table; on any other table it is invisible |
| `ShardedOrders.CopyIsInvisible` | app/migrate-service/internal/infrastructure/mysql/migration_repository.go:167-186 | activation and copying do not change the logical table |
| `ShardedOrders.CutOverIsInvisibleIffEqual` | app/migrate-service/internal/infrastructure/mysql/migration_repository.go:206-217 | the cutover leaves the logical table unchanged iff the shadow equals the primary |
| `ShardedOrders.RunRefines` | app/order-service/internal/infrastructure/mysql/sharded_order_repository.go:27-55 | in every run whose cutovers find an equal shadow, dual writes, activations, copies and cutovers do to the logical table what the statements on primaries do to one table |
| `ShardedOrders.ReusedTargetCountsTwice` | app/migrate-service/internal/infrastructure/mysql/migration_repository.go:44-62 | from every opening with two shards a run in which a table left by one shard becomes another's target and an order is counted twice |
| `ShardedOrders.UsageExactIffCleanTargets` | app/migrate-service/internal/infrastructure/mysql/migration_repository.go:44-62 | from every opening: the usage is exact in every run iff no target ever belonged to another shard or there are fewer than two shards |
| `ShardedRepository.ShardedOrderRepository.Save` | app/order-service/internal/infrastructure/mysql/sharded_order_repository.go:27-37 | saved exactly on a fresh mapping whose locations all resolve; then the order is in every location, as given or as it was there, and nothing else changed |
| `ShardedRepository.ShardedOrderRepository.Update` | app/order-service/internal/infrastructure/mysql/sharded_order_repository.go:39-55 | saved exactly on a fresh mapping whose locations all resolve and whose rows are the user's and may move; then every location has the item's status and times; in any case no other row and no other column changes |
| `ShardedRepository.ShardedOrderRepository.Find` | app/order-service/internal/infrastructure/mysql/sharded_order_repository.go:57-62 | finds the row at the order's primary exactly if the mapping is fresh, the location resolves and the row is the user's |
| `ShardedRepository.ShardedOrderRepository.Change` | app/order-service/internal/application/order_command.go:54-116 | find, mark, update: succeeds exactly if the row is at the status or may move there everywhere; the row then has the status and the time of the mark, and all else as before |
| `ShardedRepository.ShardedOrderRepository.ListUsage` | app/order-service/internal/infrastructure/mysql/sharded_order_repository.go:82-115 | refuses a stale mapping, is unresolved exactly if a primary is, else lists the usage of the distinct current primaries |
| `ShardedRepository.SaveReachesAll` | app/order-service/internal/infrastructure/mysql/sharded_order_repository.go:27-37 | acknowledged iff all locations resolve; then the order is in every table; no row that was there changes, and a new row is the item |
| `ShardedRepository.UpdateReachesAll` | app/order-service/internal/infrastructure/mysql/sharded_order_repository.go:166-201 | acknowledged iff all locations resolve and every row that is there is the user's and may move; then every table has the item's status and times |
| `ShardedRepository.UpdateTouchesItem` | app/order-service/internal/infrastructure/mysql/sharded_order_repository.go:166-201 | acknowledged or not, at most the item's rows in the named tables change, and only in status and times, along their paths |
| `SeatStore.RedisSeats.LockInventory` | app/program-service/internal/infrastructure/redis/inventory_locker.go:13-43 | the loops of the lock script take all keys and the stock, or change nothing |
| `SeatStore.RedisSeats.RollbackCreateOrder` | app/program-service/internal/infrastructure/redis/seat_state_writer.go:12-30 | gives back once, freeing only keys this order still locks |
| `SeatStore.RedisSeats.ConfirmSeatsSold` | app/program-service/internal/infrastructure/redis/seat_state_writer.go:32-50 | sells all keys, or none if one belongs to somebody else |
| `SeatStore.RedisSeats.ReleaseSeats` | app/program-service/internal/infrastructure/redis/seat_state_writer.go:52-76 | gives back once and never touches a sold key |
| `SeatStore.LockTakesWhatIsAsked` | app/program-service/internal/infrastructure/redis/inventory_locker.go:13-43 | when each reply is given; a reservation takes exactly the tickets from its category and exactly its keys, and clears the order's markers |
| `SeatStore.RollbackGivesBackOnce` | app/program-service/internal/infrastructure/redis/seat_state_writer.go:12-30 | takes effect exactly without a marker; gives back the tickets and frees exactly the keys this order still locks |
| `SeatStore.ConfirmSellsAllOrNothing` | app/program-service/internal/infrastructure/redis/seat_state_writer.go:32-50 | refuses exactly if a key belongs to another order, else every key is sold to this one and nothing else changes |
| `SeatStore.ReleaseGivesBackOnce` | app/program-service/internal/infrastructure/redis/seat_state_writer.go:52-76 | refuses exactly contested or sold keys, is a repeat exactly with its marker, else gives back as a rollback does |
| `SeatStore.GiveBackUndoesLock` | app/program-service/internal/infrastructure/redis/seat_state_writer.go:12-30 | giving back right after a lock restores stock and keys |
| `SeatStore.ConfirmSellsToItsOrder` | app/program-service/internal/infrastructure/redis/seat_state_writer.go:32-50 | every key a confirm makes sold is sold to that order, and nothing sold before changes |
| `PurchaseSafety.SeatsFollowOrders` | app/order-service/internal/application/order_command.go:54-116 | in every run, under every policy: sold to o means o is paid, released means canceled or refunded, never both |
| `PurchaseSafety.SoldIsForever` | app/program-service/internal/infrastructure/redis/seat_state_writer.go:32-76 | a key sold to o stays sold to o under every script, expiry and interleaving |
| `PurchaseMarkers.NeverOversold` | app/order-service/internal/application/create_order_consumer.go:79-101 | in every run under the policy, with markers expiring at any time: every live order row is backed by a reservation, its tickets plus the stock never exceed the seed, and the stock is never negative |
| `PurchaseHazards.ExpiredMarkerOversells` | app/program-service/internal/infrastructure/redis/seat_state_writer.go:119-135 | a release repeated after its marker expired oversells |
| `PurchaseHazards.OverlappingHandlersOversell` | app/order-service/internal/application/create_order_consumer.go:73-112 | two handlers of one event around the delay limit oversell |
| `PurchaseHazards.CarelessRetryOversells` | app/order-service/internal/application/compensation.go:95-146 | a discarded order retried while its event is out oversells |
| `PurchaseMarkers.NeverOversoldIffPrudent` | app/order-service/internal/application/compensation.go:95-146 | no run oversells iff the policy is kept |
| `PurchaseMarkers.RunLasts` | app/program-service/internal/infrastructure/redis/seat_state_writer.go:12-30 | a run in which no script gives back again after its marker lapsed is a run in which the markers last |
| `PurchaseMarkers.StockAddsUp` | app/program-service/internal/infrastructure/redis/inventory_locker.go:13-43 | in every run under its conditions, with markers expiring at any time: stock is non-negative, no order is reserved twice, and stock plus the tickets of the orders still holding, each counted once, is the seed |
| `PurchaseAccounts.LapsedRetryReservesTwice` | app/order-service/internal/application/compensation.go:107-113 | a retry repeated after its lock record and key expired takes two tickets for an order of one |
| `PurchaseMarkers.AddsUpIffTidy` | app/program-service/internal/infrastructure/redis/inventory_locker.go:13-43 | the accounts add up in every run iff the policy is kept and stopped retries are repeated only under their lock |
| `PurchaseExclusivity.SeatsAreExclusive` | app/program-service/internal/infrastructure/redis/inventory_locker.go:13-43 | in every run under its conditions no two live orders share a key, and every key of a live order is its own |
| `PurchaseSharing.ExpiredKeyShares` | app/program-service/internal/infrastructure/redis/inventory_locker.go:28-43 | a run in which the key of an unpaid order expires and two live orders get one ticket holder |
| `PurchaseSharing.ExclusiveIff` | app/program-service/internal/infrastructure/redis/seat_state_writer.go:12-76 | live orders never share a key iff keys outlive their open orders and, where events are discarded, handlers are serial and retries careful |
| `PurchaseProcesses.Sale.Submit` | app/program-service/internal/application/create_order.go:147-165 | under every schedule: the lock script ran once and, exactly if it reserved, the event went out once, or publishing failed and the rollback ran once and left its marker; otherwise nothing was taken |
| `PurchaseProcesses.Sale.Handle` | app/order-service/internal/application/create_order_consumer.go:61-112 | under every schedule: on success the order has a row or is recorded as discarded; it can fail at each of its calls |
| `PurchaseProcesses.Sale.RetryOne` | app/order-service/internal/application/compensation.go:97-144 | how often it reserved, published and rolled back, for each outcome; when it is not pending or gets no seats; a republished order is no longer pending and an undone one has its marker |
| `PurchaseProcesses.Sale.RetryAll` | app/order-service/internal/application/compensation.go:95-146 | skips exactly the orders without a user, stops at the first error, and published exactly the orders it counts, plus one that was not marked |
| `PurchaseProcesses.Sale.Cancel` | app/order-service/internal/application/order_command.go:54-69 | under every schedule: success means canceled or refunded and released; missing means no row, refused means paid or refunded, a refused script means a key of somebody else on a closed order |
| `PurchaseProcesses.Sale.PersistPaid` | app/order-service/internal/application/order_command.go:105-116 | under every schedule: success means paid and every seat sold to the order; missing means no row, refused means canceled or refunded, a refused script means a key of somebody else on a paid order |
| `PurchaseUsage.UsageIsTickets` | app/order-service/internal/infrastructure/mysql/order_repository.go:208-240 | the usage query counts, per category, exactly the tickets that the lock scripts took for the unpaid and paid orders |
| `PurchaseUsage.UsageFitsTheSeed` | app/order-service/internal/domain/order/order.go:83-88 | in every run under the policy the counted usage and the stock never exceed the seed |
| `PaymentSaga.PaymentAndOrderAgree` | app/pay-service/internal/application/pay.go:61-171 | in every run, without any lock: order REFUND implies payment REFUNDED, payment PAID implies order PAY |
| `PaymentSaga.SuccessIsFinal` | app/pay-service/internal/infrastructure/mysql/payment_repository.go:19-41 | after a successful paid callback the pair of rows is settled for good |
| `PaymentSaga.LatePaymentConverges` | app/pay-service/internal/application/pay.go:116-187 | from every reachable state of a canceled order a paid callback running alone ends REFUNDED and REFUND, all automatic refunds under one request id and the order's amount |
| `PaymentSaga.PromptPaymentSettles` | app/pay-service/internal/application/pay.go:116-149 | from every reachable state of an unpaid or paid order whose payment is not refunded, a paid callback of its amount running alone ends paid, with the payment paid at that amount and no refund |
| `PaymentSaga.UnpaidCallbackCloses` | app/pay-service/internal/application/pay.go:133-148 | an unpaid callback running alone closes the payment unless it is paid or refunded, and touches nothing else |
| `PaymentSaga.WrongAmountChangesNothing` | app/order-service/internal/application/order_command.go:126-128 | a callback of another amount running alone changes nothing |
| `PaymentSaga.ManualRefundIsRecorded` | app/pay-service/internal/application/pay.go:91-109 | a manual refund asks the gateway for the amount and records it |
| `PaymentSaga.CallbackIsRun` | app/pay-service/internal/application/pay.go:116-171 | what the written callback does, in every case, is a run of the protocol by its own actions |
| `PaymentSaga.PayUsecase.SavePayment` | app/pay-service/internal/infrastructure/mysql/payment_repository.go:19-41 | the amount is overwritten; a refund is final, a payment only gives way to a refund, any other status is overwritten |
| `PaymentSaga.PayUsecase.MarkRefunded` | app/order-service/internal/application/order_command.go:151-169 | refunds a canceled order, accepts a refunded one, refuses others |
| `PaymentSaga.PayUsecase.HandlePaymentCallback` | app/order-service/internal/application/order_command.go:118-149 | pays an unpaid order, asks for a refund of a canceled one, refuses a wrong amount |
| `PaymentSaga.PayUsecase.Callback` | app/pay-service/internal/application/pay.go:116-171 | reply, order, payment and refunds in every case: by the payment found, the amount, the order's status, and the answers of confirmation and gateway |
| `QueryCache.RedisCache.RunInvalidate` | app/program-service/internal/infrastructure/redis/program_query_cache.go:40-47 | raises the generation and deletes every key |
| `QueryCache.RedisCache.RunStore` | app/program-service/internal/infrastructure/redis/program_query_cache.go:49-56 | stores exactly if the generation is the one the reader saw |
| `QueryCache.CacheIsFresh` | app/program-service/internal/infrastructure/redis/program_query_cache.go:201-315 | in every interleaving each Redis entry is one of its key, loaded after the last invalidation, and no local entry is of another key or predates the last announcement its node handled |
| `QueryCache.QuietReadCaches` | app/program-service/internal/infrastructure/redis/program_query_cache.go:201-315 | a reader alone on its key leaves the present source in Redis and in its node's cache, and nothing else |
| `QueryCache.RedisEntryIsTakenOver` | app/program-service/internal/infrastructure/redis/program_query_cache.go:201-315 | a reader that finds a current entry in Redis takes it into its node's cache as it is |
| `QueryCache.ExpiryCanServeStale` | app/program-service/internal/infrastructure/redis/program_query_cache.go:284-326 | a generation key that expires under a live reader lets a stale entry pass the comparison |
| `QueryCache.FreshIffExpiryIsQuiet` | app/program-service/internal/infrastructure/redis/program_query_cache.go:284-326 | the caches are fresh in every run iff the key expires only while nothing relies on it |
| `QueryCache.LoudExpiryGetsStale` | app/program-service/internal/infrastructure/redis/program_query_cache.go:284-326 | from every reachable state, every expiry that the guard forbids has a stale continuation |
| `DueOrder.SelectDue` | pkg/delayqueue/memory_queue.go:66-83 | collect, sort and cut give the first due ids by time and id |
| `DueOrder.FirstDueUnique` | pkg/delayqueue/memory_queue.go:72-83 | there is only one such answer |
| `LeaseQueue.NothingIsLost` | pkg/delayqueue/memory_queue.go:37-97 | every run holds exactly what was enqueued and not acknowledged, nothing both ready and claimed |
| `LeaseQueue.ClaimedOnceBeforeDeadline` | pkg/delayqueue/memory_queue.go:60-65 | a claimed id is not claimed again before its deadline unless enqueued again |
| `DelayQueue.MemoryQueue.Enqueue` | pkg/delayqueue/memory_queue.go:37-48 | the message becomes ready and loses its claim; other topics are untouched |
| `DelayQueue.MemoryQueue.ClaimDue` | pkg/delayqueue/memory_queue.go:50-89 | hands out at most limit due messages, earliest first, each as it was with one attempt more, and passes over a due one only at the limit; what is overdue counts as waiting again |
| `DelayQueue.MemoryQueue.Ack` | pkg/delayqueue/memory_queue.go:91-97 | removes the message and its claim |
| `DelayQueue.NoMessageIsLost` | pkg/delayqueue/memory_queue.go:37-97 | in every run the record of each id is its message as last put, with only its attempts raised, by the number of deliveries since, unless dropped |
| `DelayQueue.RunIsLeaseRun` | pkg/delayqueue/memory_queue.go:37-97 | every run of a topic is a run of the lease queue, action by action |
| `DelayQueue.DeliveredOnceBeforeDeadline` | pkg/delayqueue/memory_queue.go:60-88 | a delivered message is not delivered again before its deadline unless put again |
| `RedisDelayQueue.RedisQueue.Enqueue` | pkg/delayqueue/redis_queue.go:83-93 | refuses an empty id or topic, else the three writes of the script |
| `RedisDelayQueue.RedisQueue.ClaimScript` | pkg/delayqueue/redis_queue.go:21-54 | moves the first overdue claims back and then the first due ids out, atomically |
| `RedisDelayQueue.RedisQueue.ClaimDue` | pkg/delayqueue/redis_queue.go:95-136 | returns the stored message of each claimed id with the same id, topic, payload and time and one attempt more, and stores exactly that |
| `RedisDelayQueue.RedisQueue.Ack` | pkg/delayqueue/redis_queue.go:138-141 | removes the id from both sets and the hash |
| `RedisDelayQueue.NoIdIsLost` | pkg/delayqueue/redis_queue.go:14-61 | in every run ready and processing are disjoint, hold exactly what was put and not dropped, and every id has its data |
| `RedisDelayQueue.RunIsLeaseRun` | pkg/delayqueue/redis_queue.go:14-61 | every run of the scripts is a run of the lease queue |
| `RedisDelayQueue.TakenOnceBeforeDeadline` | pkg/delayqueue/redis_queue.go:21-54 | an id that a claim hands out is not handed out again before its deadline unless put again |
| `RedisDelayQueue.TakenIsDueAsPut` | pkg/delayqueue/redis_queue.go:14-54 | in every run a claimed id was put and is due, its data is the content last put, and a due id that was not handed out yet is passed over only at the limit |
| `OrderExpiry.NoUnpaidOrderIsForgotten` | app/order-service/internal/application/create_order_consumer.go:61-134 | in every run: the order of an acknowledged, undiscarded event is closed, or its cancel check is ready or claimed with its data |
| `OrderExpiry.AcknowledgedIsSettled` | app/order-service/internal/application/order_command.go:71-89 | in every run a check is acknowledged only when its order is paid or refunded, or closed with its seats given back |
| `OrderExpiry.CheckLastsUntilSettled` | app/order-service/internal/application/cancel_order_worker.go:25-39 | in every run a check, once enqueued, stays in the queue with its data until its order is settled in that sense |
| `OrderExpiry.EveryUnpaidOrderIsWatched` | app/order-service/internal/interfaces/worker/runner.go:117-137 | with serial handlers every unpaid row has its check or an unacknowledged event |
| `OrderExpiry.UnlimitedOrdersAreWatched` | app/order-service/internal/application/create_order_consumer.go:73-112 | without a delay limit every unpaid row is watched in every run, handlers overlapping freely |
| `OrderExpiry.OverlappingHandlersForget` | app/order-service/internal/application/create_order_consumer.go:73-112 | with a delay limit, a timely and a late handler of one event can leave an unpaid row that nobody watches |
| `OrderExpiry.WatchedIff` | app/order-service/internal/application/create_order_consumer.go:61-134 | all unpaid rows are watched in every run iff a cancel delay is set and handlers are serial or no delay limit is set |
| `OrderExpiry.CheckedOrderCanBeClosed` | app/order-service/internal/application/cancel_order_worker.go:25-50 | from every reachable state one worker alone can close a checked unpaid order, release its seats and acknowledge |
| `OrderExpiryProcesses.Services.Handle` | app/order-service/internal/application/create_order_consumer.go:61-112 | under every schedule: success means saved and enqueued, already settled, or discarded as late, the last only with a delay limit; it can fail at each of its calls |
| `OrderExpiryProcesses.Services.HandleCreateOrder` | app/order-service/internal/interfaces/worker/runner.go:117-137 | under every schedule: after the acknowledgement the order is closed or checked, unless it was discarded; it gives up only if every attempt failed or was not acknowledged |
| `OrderExpiryProcesses.Services.CloseExpired` | app/order-service/internal/application/order_command.go:71-89 | success means paid or refunded, or closed with the seats given back; it fails only on a failed release or an order paid or refunded meanwhile |
| `OrderExpiryProcesses.Services.HandleMessage` | app/order-service/internal/application/cancel_order_worker.go:41-50 | a message is acknowledged only when its order is paid or refunded, or closed with the seats given back |
| `OrderExpiryProcesses.Services.Poll` | app/order-service/internal/application/cancel_order_worker.go:25-39 | claims, then under every schedule every message before the first failure belongs to a settled order |
| `Idempotency.IdempotencyStore.Begin` | app/program-service/internal/infrastructure/redis/idempotency_store.go:15-30 | takes a free or expired key, answers a known one, refuses another fingerprint |
| `Idempotency.IdempotencyStore.Complete` | app/program-service/internal/infrastructure/redis/idempotency_store.go:32-39 | completes exactly under the own fingerprint |
| `Idempotency.IdempotencyStore.Abort` | app/program-service/internal/infrastructure/redis/idempotency_store.go:41-47 | removes only an own processing entry |
| `Idempotency.CreateOrder.CreateAsync` | app/program-service/internal/application/create_order.go:104-171 | the answer in every case: a free key is accepted with the number exactly if every step succeeds and answers it from then on, else it ends free; a known key answers its number, its progress, or a refusal; seats stay held only for a published order or a failed rollback |
| `Idempotency.AbortKeepsCompleted` | app/program-service/internal/infrastructure/redis/idempotency_store.go:41-47 | no abort removes a completed entry |
| `Idempotency.SameAnswerForItsLifetime` | app/program-service/internal/application/create_order.go:104-171 | until the result expires every call with the same fingerprint gets the published number, every other is refused |
| `Idempotency.LostCompletionPublishesTwice` | app/program-service/internal/application/create_order.go:164-168 | an attempt lost between publish and complete lets a second one publish |
| `Idempotency.SlowAttemptPublishesTwice` | app/program-service/internal/application/create_order.go:104-171 | an attempt that outlives its entry lets two publish |
| `Idempotency.OncePerLifetimeIff` | app/program-service/internal/application/create_order.go:104-171 | publications of a key are a result lifetime apart in every run iff attempts end in time and complete |
| `RateLimiter.PurchaseRateLimiter.Allow` | app/program-service/internal/infrastructure/redis/purchase_rate_limiter.go:13-36 | admits iff both buckets hold a token, and spends from both or neither |
| `RateLimiter.SeenIsFaithful` | app/program-service/internal/infrastructure/redis/purchase_rate_limiter.go:24-35 | in every run each bucket behaves as if it were alone |
| `RateLimiter.EveryBucketIsBounded` | app/program-service/internal/infrastructure/redis/purchase_rate_limiter.go:13-36 | in every run and interval a user and a program are admitted at most burst plus rate times duration, expiry included |
| `RateLimiter.BoundIffMinuteFills` | app/program-service/internal/infrastructure/redis/purchase_rate_limiter.go:17-34 | one bucket keeps the bound for all calls and intervals iff burst is at most sixty times rate |
| `RateLimiter.ProgramBoundIff` | app/program-service/internal/infrastructure/redis/purchase_rate_limiter.go:13-36 | the script keeps every program in its bound in every run iff a minute refills the program's bucket or users have no burst |
| `RateLimiter.UserBoundIff` | app/program-service/internal/infrastructure/redis/purchase_rate_limiter.go:13-36 | the script keeps every user in its bound in every run, under every limit of the program, iff a minute refills the user's bucket |
| `RateLimiter.DeniedSpendsNothing` | app/program-service/internal/infrastructure/redis/purchase_rate_limiter.go:24-33 | a denied request changes no bucket's level now or later |
| `RateLimiter.DeniedOnlyAtTheBound` | app/program-service/internal/infrastructure/redis/purchase_rate_limiter.go:13-36 | after any run a request is denied only if one more would exceed the bound of its user or program in some interval that ends now |
| `Base64Url.DecodeEncode` | app/order-service/internal/application/order_query.go:96-109 | decoding undoes encoding for all byte strings |
| `Base64Url.EncodedIsUrlSafe` | app/order-service/internal/application/order_query.go:96-109 | only URL-safe letters, four for three bytes, unpadded |
| `Timestamps.ParseFormat` | app/order-service/internal/application/order_query.go:96-123 | parsing undoes formatting for every UTC time of four-digit years, to the nanosecond |
| `Timestamps.FormatIsRfc3339` | app/order-service/internal/application/order_query.go:96-123 | the date fields stand in their places, then the clock, in UTC |
| `Timestamps.ClockIsRfc3339` | app/order-service/internal/application/order_query.go:96-123 | hour, minute, second and fraction stand in their places |
| `Timestamps.RankIsCalendar` | app/order-service/internal/infrastructure/memory/order_repository.go:82-87 | the rank that the list is sorted by is the order of the calendar |
| `Cursors.DecodeEncode` | app/order-service/internal/application/order_query.go:96-124 | a cursor comes back exactly if its order number is a positive 64-bit integer, else it is refused |
| `Pagination.ListByUserIDPage` | app/order-service/internal/infrastructure/memory/order_repository.go:73-92 | the first orders after the cursor of the one sorted list of matching orders |
| `Pagination.ListUnique` | app/order-service/internal/infrastructure/memory/order_repository.go:82-87 | a set of orders has one such list |
| `Pagination.NewerIsTotal` | app/order-service/internal/infrastructure/memory/order_repository.go:82-87 | of two orders with different numbers one always comes first: equal ranks are equal times |
| `Pagination.NewerIsLater` | app/order-service/internal/infrastructure/memory/order_repository.go:82-87 | the list is newest first in the calendar, and by number within one time |
| `Pagination.QueryPage` | app/order-service/internal/application/order_query.go:48-81 | refuses exactly a bad user or cursor; the page holds only the user's orders of the status after the cursor, newest first, at most the clamped limit, and all of them below it; a cursor comes only with a full page |
| `Pagination.PagesAreExactIff` | app/order-service/internal/application/order_query.go:48-124 | following the cursors ends with all matching orders once each in order iff every page but the last ends in a usable order; otherwise it never ends or is refused |
| `Pagination.UsableItemsEndWell` | app/order-service/internal/application/order_query.go:75-79 | orders with positive numbers and real times always page exactly |
| `Pagination.ZeroTimesEndBadly` | app/order-service/internal/infrastructure/memory/order_repository.go:78 | three orders at the zero time violate the condition |
| `OrderNumbers.OrderNumberGenerator.NextOrderNumber` | pkg/idgen/order_number.go:33-67 | the reply and the new state for every clock, with its three errors and the wait |
| `OrderNumbers.Clock.WaitNextMillis` | pkg/idgen/snowflake.go:75-82 | returns the first reading past the given one |
| `OrderNumbers.Snowflake.NextID` | pkg/idgen/snowflake.go:48-69 | refuses a clock gone back, else an id above the one of the state before |
| `OrderNumbers.NumbersIncrease` | pkg/idgen/order_number.go:33-67 | the numbers of one generator strictly increase, whatever the clock does |
| `OrderNumbers.NumbersDecode` | pkg/idgen/order_number.go:54-78 | every number is below 2^63 and unpacks to exactly its time, node, sequence and user gene |
| `OrderNumbers.NumberIsGiven` | pkg/idgen/order_number.go:33-67 | while clock, range and sequence allow, a call gets a number at once, of its time, node, next sequence and user |
| `OrderNumbers.FullMillisecondWaits` | pkg/idgen/order_number.go:33-53 | a full millisecond leads to sequence 0 of a later one, a clock gone back to an error that changes nothing |
| `OrderNumbers.GenesSpread` | pkg/idgen/order_number.go:69-74 | users share a gene iff their numbers agree modulo 1024, and every gene occurs |
| `OrderNumbers.NodesNeverCollide` | pkg/idgen/order_number.go:33-67 | generators with different nodes never return the same number |
| `OrderNumbers.UnpackPack` | pkg/idgen/order_number.go:8-20 | unpacking undoes packing |
| `OrderNumbers.ShiftsAreSums` | pkg/idgen/order_number.go:63-66 | the shifts and ors of the program are the packed number of the model |
| `Routing.LookupsAgree` | pkg/sharding/order_router.go:50-69 | lookups by order and user, user, and order meet in one table, whose index is the gene modulo the number of shards |
| `Routing.MappedLookupsAgree` | pkg/sharding/mapping_router.go:77-137 | under every mapping table the three lookups meet in one shard, and the catalogue at its index is where the order is read |
| `Routing.GeneratedLookupsAgree` | pkg/idgen/order_number.go:69-78 | every generated number routes alike by order and user, by user and by order, to the shard of its gene |
| `Routing.GeneRouter.PrimaryLocations` | pkg/sharding/order_router.go:20-39 | the nested loops give the catalogue, slot by slot |
| `Routing.DistinctIndexesDistinctTables` | pkg/sharding/order_router.go:28-36 | different slots have different names |
| `Routing.NamesCarryPrefixAndIndex` | pkg/sharding/order_router.go:28-36 | a name is the prefix of its own kind, an underscore and its index |
| `Routing.UsersSpread` | pkg/sharding/order_router.go:50-69 | users whose numbers differ modulo 1024 and then modulo the shards get different tables |
| `Routing.LastRowWins` | pkg/sharding/mapping_router.go:38-60 | the table holds, for each shard, exactly its last row |
| `Routing.MappingOrderRouter.ReplaceMappings` | pkg/sharding/mapping_router.go:35-65 | accepts iff every row is acceptable, and then replaces table and age; otherwise changes nothing |
| `Routing.MappingOrderRouter.RouteOrder` | pkg/sharding/mapping_router.go:77-86 | the first write location of the order's shard |
| `Routing.MappingOrderRouter.RouteOrderWrites` | pkg/sharding/mapping_router.go:88-101 | the primary, then the shadow of a dual-write row |
| `Routing.MappingOrderRouter.PrimaryLocations` | pkg/sharding/mapping_router.go:103-116 | the primary of every shard, at the shard's index |
| `Outbox.OutboxRepository.Save` | app/program-service/internal/infrastructure/mysql/outbox_repository.go:20-38 | a new event becomes pending, a known one stays as it is |
| `Outbox.OutboxRepository.Select` | app/program-service/internal/infrastructure/mysql/outbox_repository.go:40-55 | the first claimable rows in id order, up to the clamped limit |
| `Outbox.OutboxRepository.Claim` | app/program-service/internal/infrastructure/mysql/outbox_repository.go:40-98 | leases exactly those rows, one attempt more each |
| `Outbox.OutboxRepository.MarkPublished` | app/program-service/internal/infrastructure/mysql/outbox_repository.go:100-109 | changes only a row in processing |
| `Outbox.OutboxRepository.MarkRetry` | app/program-service/internal/infrastructure/mysql/outbox_repository.go:111-120 | changes only a row in processing |
| `Outbox.OutboxRepository.Flush` | app/program-service/internal/interfaces/worker/outbox.go:53-73 | alone, each claimed event ends published or scheduled for a retry, and none is left out below a full batch |
| `Outbox.PublishedMeansSent` | app/program-service/internal/infrastructure/mysql/outbox_repository.go:40-120 | in every run each saved event is pending, leased, or published, and published only after it was sent |
| `Outbox.PublishedIsTerminal` | app/program-service/internal/infrastructure/mysql/outbox_repository.go:100-120 | from any state on no event disappears and a published row never changes |
| `Outbox.AttemptsAreClaims` | app/program-service/internal/infrastructure/mysql/outbox_repository.go:57-98 | in every run a row has as many attempts as there were claims that took it |
| `Outbox.CanStillBePublished` | app/program-service/internal/infrastructure/mysql/outbox_repository.go:40-98 | from every reachable state every saved event can still get published |
| `Outbox.LostMarkSendsTwice` | app/program-service/internal/interfaces/worker/outbox.go:62-70 | a worker lost between publish and mark causes a second send |
| `Outbox.SlowWorkerSendsTwice` | app/program-service/internal/infrastructure/mysql/outbox_repository.go:50-55 | a worker slower than its lease causes a second send |
| `Outbox.SentOnceIff` | app/program-service/internal/interfaces/worker/outbox.go:53-73 | each event is sent at most once in every run iff workers are in time and complete |

## Left out

- HTTP and gRPC handlers, generated code, wiring and configuration: no invariants of their own.
- SQL, Redis, Kafka and JSON mechanics: stores are maps, statements and scripts are atomic, documents are their fields.
- Cryptography, search, metrics, logging and the web front end.
- Inventory reconciliation, purchase validation, pricing, masking and error codes: single-pass checks that would only add easy members.
- The in-memory inventory locker, payment repository and blind order writes: development twins of the stores modelled here.
- Waiting for a lock holder's Redis entry in the cache, which only reads what the protocol already lets a reader fetch, and search, seat and price caches.
- Pub/sub delivery and local cache admission are taken as synchronous; an announcement may reach any set of nodes, and a node that missed one is judged by those it handled.
- The legacy-queue branch of the Redis claim script, where ids may collide.
- A mapping table with missing rows: where a shard falls back to the gene router only Routing covers it.
- MigrationChains.ChainLosesNothing: of a write under the dual-write mapping of the task before, only its statements on the new source are modelled, since the old source is nobody's table any more.
- ShardedOrders.StatementRefines: covers single statements; whole runs are the subject of RunRefines, which takes cutovers that find an equal shadow.
- PurchaseMarkers.AddsUpIffTidy: needs a category with two tickets; a sale of one ticket cannot take two.
- PurchaseProcesses.Sale.Submit: says that the seats were taken when the lock script ran; what others do to them afterwards is the subject of the theorems about runs.
- RedisDelayQueue.TakenIsDueAsPut: takes clients that write back the content last put; a message put again with another content between a client's read and its write is overwritten by the old one.
- RedisDelayQueue.RedisQueue.ClaimDue: script and reads run undisturbed, so the branch for an id without data is never taken there; OrderExpiry has it as a step of its own.
- OrderExpiryProcesses.Services.Poll: the claimed list is an argument that the lease queue allows; its order and limit are the subject of the queue modules.
- RateLimiter.PurchaseRateLimiter.Allow: a key is taken to be gone as soon as 60,000 ms have passed on the clock that the script is given.
- RateLimiter.EveryBucketIsBounded: tokens are exact reals, rounding of Lua numbers is not modelled.
- Cursors.DecodeEncode: cursors written by hand, with time offsets, commas in fractions, JSON white space or line breaks in base64, are refused by the model and partly accepted by the program.
- Pagination.QueryPage: the status filter arrives parsed, and the cursor text trimmed.
- OrderNumbers.Snowflake.NextID: times beyond 41 bits, where the shift drops bits, are not modelled.
- RateLimiter.UserBoundIff: says nothing about one fixed limit of the program that happens to hold a user back.
- Outbox.OutboxRepository.Flush: one worker alone at one moment; overlapping workers are the subject of the lemmas of that module.
- Idempotency.CreateOrder.CreateAsync: one attempt alone at one moment; overlap, crashes and time are the subject of the lemmas of that module.
- PaymentSaga.LatePaymentConverges: a manual refund is a step of the environment and not covered by the single request id.
