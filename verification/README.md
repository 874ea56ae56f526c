# Order pipeline verification

A Dafny model of goshop's order pipeline and the properties it rests on: placing and cancelling
orders, idempotent requests, the transactional outbox, its publisher and its Redis Streams consumer,
the order rate limiter, the product-list cache, checked money and service lifecycles.

`dafny verify dfyconfig.toml` checks everything.

## How it is built

Two kinds of model stand side by side.

*State machines* for what runs concurrently. A machine has a state, a set of events and a step
function; an event that is not enabled changes nothing, so every list of events is a run and every
theorem about `Run` holds for every schedule. One event is one database statement, one Redis command
or one local decision. Commands may fail, and may take effect and still report an error (`Unsure`).

| file | machine |
|---|---|
| `Transactions.dfy` | interleaved place, cancel and stock administration over PostgreSQL rows, row locks and the unique index |
| `Idempotency.dfy` | HTTP order requests: Redis reservation, durable lookup, transaction, completion or release |
| `Publisher.dfy`, `Lease.dfy` | outbox publisher workers, without and with the lease hypothesis |
| `EndToEnd.dfy` | the order transactions and the publisher over the one outbox table |
| `Consumer.dfy`, `ConsumerCounts.dfy`, `ConsumerOnce.dfy` | the consumer group: stream, pending list, processed keys, failure counters, dead-letter stream |
| `ListCache.dfy` | readers and writers of the versioned product-list cache |
| `Lifecycle.dfy` | goroutines, error channel, wait group and select of `lifecycle.Run` |
| `RateLimit.dfy` | checks against expiring counters, in order of time |

Safety alone would be met by a machine that never moves. So the machines are also shown to do their work:
`Undisturbed.dfy` runs placements, cancellations and administration alone and finds the service's own
specification, error by error; `Answers.dfy` does so for a whole request, from its arrival to its reply;
`ConsumerOutcomes.dfy` says what becomes of one message when every Redis command works; in `Publisher.dfy`
every row gets its turn from every state.

*Imperative code* for what updates its state in place: `OrderService.dfy` (database object, order and
inventory services), `Outbox.dfy` (outbox table and one publisher batch), `ConsumerLoop.dfy` (the
consumer's batch loop), `RateLimit.dfy` (the increment script and the check), `ListCache.dfy` (the list
handler), `StockPlan.dfy` (plan aggregation). The methods are proved against value-level functions, which
the machines share: `Tables.dfy` and `Ledger.dfy` for the order tables, the row functions of `Outbox.dfy`,
`Consumer.Advance`, `RateLimit.Incremented`. `Effects.dfy` says, product by product, when the order
transactions go through and what they then leave. Statements and Redis commands fail at any time; a ghost
counter `faults` counts them, and a method reports an infrastructure error only if it grew. The replay of a stored order has an account in the service
and one in the gateway machine; `Replay.dfy` proves that they agree. `Opening.dfy` shows that the
invariants hold of empty systems, so no theorem is about nothing.

The main results:

* interleaved transactions amount to a serial history (`Transactions.Serializable`); in every reachable
  state stock plus units in live orders equals what administrators supplied, and inventory waits never
  form a cycle;
* whatever Redis loses and whatever commits report, a user and key get at most one order, placed by one
  operation, with exactly one outbox row, and every successful reply names it; the database of a gateway
  run is a run of the interleaved transactions, so all of the above holds of it;
* a request under a free key is placed exactly when it is well formed, its prices add up within int64 and
  stock suffices; the order is the caller's at the exact total, and exactly its units leave stock; a
  cancellation goes through exactly for the owner of a new or running order whose units fit back;
* a request that nothing disturbs is answered as the service's specification says, with the order under its
  key in Redis or the reservation gone; sent again it is answered from that record, and a request that lost
  the race for its key is answered with the winner's order;
* every order reaches the outbox once, every stream entry parses back to a committed order, and a row
  marked published is in the stream;
* with timely workers, published and dead-lettered rows are final, attempts are failures, and backoff
  waits are kept; without any timing, a published or dead-lettered row is final exactly when at that moment
  no worker holds another claim on it whose verdict is open or opposite, and a concrete nine-step run
  reopens a published row; a row that failed k times is due again after exactly k base delays, and no
  unfinished row is ever stuck;
* the consumer acknowledges nothing it has not handled or copied, and gives up an event only after as
  many failures, counted while one counter key lived, as its limit; what a batch counts as acknowledged has
  left the pending list, and each message ends as its parse, its event's history and the handler decide;
* one consumer handles an event successfully at most once more than there were lapses of that event
  (a lost mark, a stop before the mark, an expired key), and every list of lapses is met by a run with
  that many successes; other events do not matter;
* the limiter admits at most twice its limit in any one window's length, plus the user's own checks that
  Redis did not answer, and for any number of those the bound is reached;
* a list request that went on with version v shows every bump up to v, in every run, and for each later
  bump made before it arrived some run leaves it out; it goes on with at least the bumps before it if its
  own version read worked and the version key was not evicted;
* the price round trip is safe exactly up to 450,359,962 minor units under the rounding model, and
  rounding to the nearest float64 does lose 838,860,803.

## Assumptions

PostgreSQL: a transaction commits or rolls back as a whole, a guarded update sees the row as it is once
its lock is free, `SKIP LOCKED` skips, the unique index holds. Redis: each command and script is
atomic. A SHA-256 digest has 64 hexadecimal characters and does not collide on the keys and queries in
use: the theorems about lists name that set of queries, and idempotency keys and request fingerprints are
represented by what was hashed. JSON and RFC 3339 encoding and decoding are inverse
(`StreamMessage.Faithful`). Order and event ids are fresh, non-empty UUIDs. Float
operations have relative error at most 2^-53 (`Money.Rounding`). Publisher workers share one clock.

Where the documentation and the code differ, the model follows the code: docs/order-transaction-safety.md
puts validation inside the transaction and lists neither plan aggregation nor the outbox row, while the
code validates and looks the key up before it, merges lines per product in ascending order, and adds
the outbox row. docs/order-outbox-pattern.md says the dead-letter stream gets the original message;
the code copies its ids, type, aggregate and payload, but not its `created_at`.

## Model

| member | source | states |
|---|---|---|
| StockPlan.StockConsumptionPlan | internal/order/service/order.go:188-215 | the plan is the one ascending list of the products mentioned with their exact sums, and it fails exactly when some sum exceeds MaxInt64 |
| StockPlan.PlanUnique | internal/order/service/order.go:201-214 | strictly ascending ids with the exact sums determine the plan: nothing is left to map iteration order |
| StockPlan.PlanDependsOnMultiset | internal/order/service/order.go:188-215 | reordering the lines of an order never changes its plan |
| StockPlan.FingerprintEqualsMultiset | internal/order/port/http/handlers.go:328-339 | two requests have the same canonical list exactly when they have the same lines with the same multiplicities |
| StockPlan.EqualFingerprintsEqualPlans | internal/order/port/http/handlers.go:328-339 | requests that replay each other would consume the same stock |
| StockPlan.SortedKeys | internal/order/service/order.go:201-205 | the keys come out complete and strictly ascending |
| Money.MultiplyExact | pkg/money/money.go:32-41 | the guards refuse exactly the products outside int64 or of a negative price, and never let a product wrap |
| Money.RoundTripExactly | pkg/money/money.go:12-30 | price and back restores n under every rounding within the error model if and only if n is at most 450,359,962 |
| Money.RoundTripAboveBound | pkg/money/money.go:12-30 | above the bound a rounding within the model loses every amount, so the bound cannot be raised in that model |
| Money.NearestRoundingLoses | pkg/money/money.go:12-30 | with each operation rounded to the nearest float64, the price of 838,860,803 minor units is refused on the way back |
| Money.AcceptedIsNearWhole | pkg/money/money.go:12-26 | what is accepted came from a finite, non-negative price within the tolerance of a whole number of minor units |
| Tables.PricingExact | internal/order/service/order.go:89-109 | the total loop succeeds exactly when the mathematical sum fits in int64, and then it is that sum and the sum of the line totals |
| Tables.PricedAddsUp | internal/order/service/order.go:89-109 | whatever was read, a priced order keeps its lines and its total is their sum within int64 |
| Tables.ConsumeAllRows | internal/inventory/repository/inventory.go:133-144 | guarded decrements along a plan succeed exactly when every row covers its quantity, and take exactly the plan |
| Tables.RestockAllRows | internal/inventory/repository/inventory.go:146-159 | upserts along a plan succeed exactly when every row stays within int64, and return exactly the plan |
| Effects.RequestErrorExactly | internal/order/service/order.go:67-72 | a request passes exactly with a user, one to five lines, product ids, and quantities from one to a million; a bad quantity is reported first |
| Effects.PricedExactly | internal/order/service/order.go:89-109 | pricing succeeds exactly when every product has a price within int64 and the total fits; each line then costs price times quantity, and the total is their exact sum |
| Effects.PricingRefused | internal/order/service/order.go:91-106 | otherwise the first line that cannot be priced decides between an unknown product and an invalid amount |
| Effects.PlaceTxExactly | internal/order/service/order.go:111-148 | a placement goes through exactly when every product has enough and the key is free, and leaves the order, its event and exactly those units gone; else the first short product in ascending order, or the key, names the error |
| Effects.CancelTxExactly | internal/order/service/order.go:288-327 | a cancellation goes through exactly for the owner of a new or running order whose units fit back, cancels that order alone and returns exactly its units; an unknown order, another user and a finished order each get their own error |
| Effects.CancelOverflows | internal/order/service/order.go:308-316 | what else refuses it is a product sum past int64 or a row without room, told apart |
| Ledger.StepKeeps | internal/order/service/order.go:84-148 | every operation, applied or refused, keeps keys unique, totals exact, one outbox row per order, and the unit balance |
| Ledger.CancelUndoesPlace | internal/order/service/order.go:288-327 | cancelling right after placing is possible and restores every stock row |
| Ledger.CancelledOnce | internal/order/repository/order.go:151-172 | once cancelled, an order stays cancelled through any further operations, and cancelling it again fails |
| Transactions.RunKeeps | internal/order/repository/unit_of_work.go:28-40 | the whole-system invariant holds after every interleaving of statements, commits and failures |
| Transactions.CommitIsPlace | internal/order/service/order.go:84-148 | an interleaved placement that commits has done what it would have done alone at that instant |
| Transactions.CommitIsCancel | internal/order/service/order.go:288-327 | the same for a cancellation that read its order before the guarded update |
| Transactions.Serializable | internal/order/repository/unit_of_work.go:28-40 | the committed tables of any run are those of its visible operations one after another |
| Transactions.UnitsConserved | internal/inventory/repository/inventory.go:95-159 | for every product stock plus units in live orders equals net supply, and stock is never negative |
| Transactions.OneOrderPerKey | migrations/000005_order_idempotency_and_money.up.sql:69-71 | no schedule commits two orders of one user under one key |
| Transactions.OrdersPreserved | internal/order/repository/order.go:151-172 | no schedule loses an order or changes anything but its status, and that only to cancelled |
| Transactions.UnitsReturnOnce | internal/order/repository/order.go:151-172 | two visible cancellations are of different orders, however many read the order first |
| Transactions.StockDeductedOnce | internal/order/service/order.go:115-148 | two visible placements are of different orders and outbox rows |
| Transactions.NoWaitCycle | internal/order/service/order.go:201-214 | the wait-for relation on inventory rows has no cycle in any reachable state |
| Transactions.NoDeadlock | internal/order/service/order.go:312-316 | a transaction that waits for an inventory row waits, through a chain of waits, for a holder that is not waiting |
| Idempotency.CacheKeyInjective | internal/order/port/http/handlers.go:319-326 | no two pairs of user and key share a Redis key |
| Idempotency.RunKeeps | internal/order/port/http/handlers.go:175-250 | success records, request states and tables stay consistent under every interleaving, loss, expiry and crash |
| Idempotency.DatabaseIsARun | internal/order/port/http/handlers.go:104-173 | the database of a gateway run is a run of the interleaved transactions |
| Idempotency.PlacedOncePerKey | internal/order/service/order.go:66-172 | replied to or not, a user and key have at most one order, placed by one operation, with exactly one outbox row |
| Idempotency.OneAnswerPerKey | internal/order/port/http/handlers.go:175-250 | all successful replies of one user for one key name one order, the only one with that key, with exactly one outbox row |
| Idempotency.ReplyMatchesRequest | internal/order/service/order.go:162-172 | a successful reply, keyed or not, is the caller's own order with the caller's lines up to order |
| Idempotency.RecordAnswers | internal/order/port/http/handlers.go:198-229 | what a request is told by the record under its key: conflict for another fingerprint, its order if it succeeded, in flight otherwise |
| Idempotency.SucceededRecordReplays | internal/order/port/http/handlers.go:194-241 | a keyed request sent again after it succeeded is answered with its order from the record, and nothing else changes |
| Idempotency.RedisAgreesWithDatabase | internal/order/port/http/handlers.go:194-241 | in every run the Redis path, run to its reply, and the durable lookup lead to the same order for the same fingerprint, and to a conflict on both otherwise |
| Idempotency.RepliesLast | internal/order/port/http/handlers.go:104-173 | a reply once given does not change |
| Replay.ReplaysAgree | internal/order/service/order.go:162-172 | the service's replay and the machine's lookup lead to the same order or the same error, before the transaction and after a duplicate |
| Undisturbed.PlacesAsSpecified | internal/order/service/order.go:84-148 | a placement alone in the machine, statement by statement, commits exactly when the service callback succeeds, with its order and tables, and fails with its error otherwise |
| Undisturbed.CancelsAsSpecified | internal/order/service/order.go:288-327 | the same for a cancellation |
| Undisturbed.AdministersAsSpecified | internal/inventory/service/inventory.go:54-89 | on a row nobody holds a set stores its amount and an adjustment applies exactly when the row may have the result |
| Answers.AnsweredAsSpecified | internal/order/port/http/handlers.go:104-173 | a request that nothing disturbs, keyed or not, cached or not, ends with the reply and the tables of the service specification; a success record for its order lies under its key, or the reservation is gone |
| Answers.LoserReplays | internal/order/service/order.go:149-154 | a request whose insert met the unique index is answered by the order that holds the key, or with a conflict if its lines differ |
| OrderService.PlacesExactly | internal/order/service/order.go:66-160 | under a free key a request is placed exactly when it is acceptable, priceable and in stock; the order has the caller, lines, line prices, exact total and key, it and its event are stored, exactly its units are gone; otherwise no table changes |
| OrderService.RefusesExactly | internal/order/service/order.go:66-160 | otherwise the first check that fails names the error: request, key without fingerprint, first unpriced line, first short product |
| OrderService.PlaceOrder | internal/order/service/order.go:66-160 | the method does exactly what the specification says, and its reply is a new order as above or the stored one of that key and fingerprint; it fails internally only after a fault, and then nothing changed, or the order was committed by a commit that reported an error |
| OrderService.PlaceInTransaction | internal/order/service/order.go:84-148 | the callback prices, plans, consumes, inserts and records as one function of the tables |
| OrderService.ReplayIdempotentOrder | internal/order/service/order.go:162-172 | the replay finds the key's only order, and conflicts exactly on another fingerprint |
| OrderService.CancelOrder | internal/order/service/order.go:288-327 | a cancellation does exactly what the specification says, only for the owner of a new or running order; anyone else is denied and changes nothing; an error changes nothing, save an internal one, after a fault, from a commit that took effect |
| OrderService.PriceLines | internal/order/service/order.go:89-109 | the loop computes the checked pricing of all lines, or the first error |
| OrderService.ConsumePlan | internal/order/service/order.go:115-119 | the loop consumes the whole plan or stops at the first refusal with its error |
| OrderService.BuildOrderCreatedPayload | internal/order/service/order.go:248-265 | the payload carries the order's id, user, total, status and every line |
| OrderService.SecondPlacementReplays | internal/order/service/order.go:74-82 | repeating a keyed placement answers with the first order and changes no table, whatever prices are now |
| OrderService.AdjustStock | internal/inventory/service/inventory.go:72-89 | an adjustment applies in full or says whether the row is missing, short or full, and leaves it |
| OrderService.SetStock | internal/inventory/service/inventory.go:54-70 | a set either stores the amount or leaves every quantity as it was |
| OrderService.ConsumeStock | internal/inventory/service/inventory.go:91-109 | missing and insufficient stock are told apart exactly, and a refusal changes nothing |
| Outbox.DueExactly | internal/outbox/repository/outbox.go:166-186 | who can be claimed when: a new row at once, a claimed one after the timeout, one failed for the k-th time after exactly k base delays unless that was the last attempt, a published one never |
| Outbox.ClaimTakesDue | internal/outbox/repository/outbox.go:166-186 | a claim takes due rows only, and all of them that nobody has locked unless its limit, 100 by default, is reached |
| Outbox.OutboxTable.ClaimReady | internal/outbox/repository/outbox.go:66-100 | the claim takes the oldest eligible unlocked rows up to the limit and marks exactly those; it fails only after a fault, and then changes nothing |
| Outbox.OutboxTable.RecordPublishFailure | internal/outbox/service/outbox.go:151-166 | a failure counts one attempt, sets the linear backoff and dead-letters at the bound |
| Outbox.RunOnce | internal/outbox/service/publisher_worker.go:113-182 | a batch settles its rows in order, counts published and failed exactly, and counts dead-lettered rows without repetition; if the claim or its commit fails nothing is published, and what was fetched is still counted |
| Outbox.SettledAt | internal/outbox/service/publisher_worker.go:146-182 | after a batch each claimed row is settled by its own verdict, independent of the others |
| Publisher.RunKeeps | internal/outbox/service/publisher_worker.go:113-206 | in every run entries are copies of rows and published rows are delivered; rows keep identity and the stream only grows |
| Publisher.PublishedMeansDelivered | internal/outbox/service/redis_stream_publisher.go:32-63 | a row marked published has its entry in the stream, with no timing hypothesis |
| Publisher.FinalExactly | internal/outbox/repository/outbox.go:102-139 | a published or dead-lettered row keeps that status in every run from here exactly when no worker holds a claim on it that is still open or decided the other way; otherwise some run writes the opposite verdict |
| Publisher.StaleWorkerReopens | internal/outbox/repository/outbox.go:115-127 | a concrete run in which a stale worker turns a published row pending again |
| Publisher.RoundsAreTheBatch | internal/outbox/service/publisher_worker.go:146-182 | one worker alone in the machine is the batch loop |
| Publisher.EveryRowGetsItsTurn | internal/outbox/service/publisher_worker.go:113-182 | from any state, every row neither published nor dead-lettered comes due, and then any idle worker can take it and publish it, with its entry in the stream, or record one more failure |
| Lease.RunKeeps | internal/outbox/repository/outbox.go:166-186 | in timely runs every processing row in use has one owner and attempts stay below the bound until dead-lettered |
| Lease.TerminalForever | internal/outbox/repository/outbox.go:102-139 | in timely runs published and dead-lettered rows never change again |
| Lease.AttemptsAreFailures | internal/outbox/service/outbox.go:151-166 | attempts equals the number of recorded failures, and dead-lettered means exactly at the bound |
| Lease.OneLiveOwner | internal/outbox/repository/outbox.go:66-100 | no event is in the hands of two live workers |
| Lease.DeadCounterExact | internal/outbox/service/publisher_worker.go:146-163 | a worker's dead-letter count is exactly the number of rows its writes moved there since its claim, and they are all still there |
| Lease.FailureDelaysClaim | internal/outbox/service/outbox.go:151-166 | after its k-th failure a row is not claimable for k times the base delay, and while pending it is claimable exactly from then on |
| Lease.DeadLetterNotBefore | internal/outbox/service/outbox.go:151-166 | with m attempts dead-lettering is at least base times m(m-1)/2 after the first failure |
| Lease.FailuresRunOut | internal/outbox/repository/outbox.go:115-127 | attempts grow by one per recorded failure, and no timely run records more failures of a row than it had attempts left |
| EndToEnd.OneRowPerOrder | internal/order/service/order.go:121-148 | every committed order has exactly one outbox row, whose payload is its lines and total |
| EndToEnd.EveryEntryIsAnOrder | internal/outbox/consumer/handler.go:43-85 | every stream entry parses back to the creation event of a committed order |
| EndToEnd.PublishedRowsAreInTheStream | internal/outbox/service/publisher_worker.go:146-182 | every row marked published has an entry that carries it |
| Consumer.NothingIsLost | internal/outbox/consumer/redis_consumer.go:241-357 | each message is exactly one of undelivered, pending and acknowledged, what is acknowledged stays so, and it was handled or copied |
| Consumer.AdvanceBrokerOk | internal/outbox/consumer/redis_consumer.go:241-365 | no command of any message, however it fails, acknowledges what was neither handled nor copied |
| Consumer.AckTakesOff | internal/outbox/consumer/redis_consumer.go:359-365 | an acknowledgement that takes effect moves its message, and no other, from pending to acknowledged |
| ConsumerOutcomes.SuccessIsProcessed | internal/outbox/consumer/redis_consumer.go:322-354 | with every command working, a new event whose handler succeeds is handled once, marked, acknowledged and counted as processed |
| ConsumerOutcomes.FailureIsCounted | internal/outbox/consumer/redis_consumer.go:293-320 | a failure below the limit is counted and leaves the message pending; the one that reaches it copies the event with its count and acknowledges the message |
| ConsumerOutcomes.DuplicateIsSkipped | internal/outbox/consumer/redis_consumer.go:277-290 | a processed event is acknowledged without calling the handler and counted as skipped |
| ConsumerOutcomes.InvalidIsSetAside | internal/outbox/consumer/redis_consumer.go:245-266 | a message that does not parse is copied with its fields, acknowledged, counted as invalid, and never handled |
| ConsumerOutcomes.OnwardIsDrive | internal/outbox/consumer/redis_consumer.go:241-357 | these commands are the loop's |
| ConsumerCounts.CounterIsFailures | internal/outbox/consumer/redis_consumer.go:367-376 | in every run a counter is the number of different failures of its event counted while its key has lived |
| ConsumerCounts.CountIsFailures | internal/outbox/consumer/redis_consumer.go:293-320 | a handler-error entry with count n has n at or above the limit and stands for n different failures of that event, counted since the counter key was created |
| ConsumerCounts.BelowThresholdStaysPending | internal/outbox/consumer/redis_consumer.go:293-320 | an event not handled, whose counter never reached the limit, leaves its delivered messages pending, whatever expired in between |
| ConsumerOnce.SuccessesBound | internal/outbox/consumer/redis_consumer.go:270-355 | one consumer handles an event successfully at most once, and once more for each lost mark, stop before the mark or expiry of that event's key |
| ConsumerOnce.EveryLapseCosts | internal/outbox/consumer/store.go:31-50 | for every list of lapses some run with exactly those has that many successes |
| ConsumerOnce.AtMostOnceExactly | internal/outbox/consumer/redis_consumer.go:270-355 | at most one success is guaranteed exactly when the event has no lapse |
| ConsumerLoop.DriveMoves | internal/outbox/consumer/redis_consumer.go:241-365 | at every point of a batch its messages move from pending to acknowledged one by one, and the counter is their number, short by at most the acknowledgements that reported an error |
| ConsumerLoop.RedisConsumer.AckMessage | internal/outbox/consumer/redis_consumer.go:359-365 | an acknowledgement reported as done has taken the message off the pending list |
| ConsumerLoop.RedisConsumer.ProcessMessages | internal/outbox/consumer/redis_consumer.go:241-357 | the loop is the machine's commands in order, read equals processed plus skipped plus failed, and no more is counted as acknowledged than has left the pending list |
| ConsumerLoop.RedisConsumer.RecordFailure | internal/outbox/consumer/redis_consumer.go:293-303 | a reported count is the event's counter after this failure; exactly at or past the limit the message goes on to be copied, otherwise the next one is taken up |
| ConsumerLoop.RedisConsumer.MarkProcessed | internal/outbox/consumer/store.go:38-50 | marking tells a first mark from a repeated one and from a failure |
| ConsumerLoop.RedisConsumer.RunOnce | internal/outbox/consumer/redis_consumer.go:190-200 | a read takes as many new messages as asked for or there are and advances the group by them; only after a fault does it report an error, and then those messages stay pending |
| ConsumerLoop.RedisConsumer.ClaimStaleOnce | internal/outbox/consumer/redis_consumer.go:202-226 | a re-claim reads nothing new and keeps the group sound |
| ConsumerLoop.RedisConsumer.EnsureGroup | internal/outbox/consumer/redis_consumer.go:177-188 | a missing group starts at the first message, an existing one keeps its position and pending list |
| ConsumerLoop.DriveIsRun | internal/outbox/consumer/redis_consumer.go:241-357 | the loop's commands are a run of the machine with one consumer |
| ConsumerLoop.DriveTally | internal/outbox/consumer/redis_consumer.go:241-357 | at every point of a batch its counters account for each message exactly once |
| RateLimit.Limiter.IncrementWithExpiration | pkg/redis/redis.go:18-28 | the script's commands are the increment function the bound is about |
| RateLimit.Limiter.AllowOrderPlacement | internal/order/port/http/handlers.go:252-269 | the check lets through exactly what the model allows, and everything when Redis does not answer |
| RateLimit.AllowedBound | internal/order/port/http/handlers.go:252-269 | any interval admits at most the limit once, once more for each window that can begin after its start, and the checks Redis did not answer |
| RateLimit.OneWindowBound | internal/order/port/http/handlers.go:252-269 | an interval of one window's length admits, per user, at most twice the limit and that user's own unanswered checks, with all users interleaved and any keys to begin with |
| RateLimit.TwiceIsReached | pkg/redis/redis.go:18-28 | twice the limit and any number of unanswered checks do get through in one window's length |
| RateLimit.UnansweredGetThrough | internal/order/port/http/handlers.go:257-261 | every check that Redis does not answer lets the placement through |
| RateLimit.UsersAreSeparate | internal/order/port/http/handlers.go:341-343 | what one user gets does not depend on the checks of others |
| RateLimit.NoWindowNeverRecovers | pkg/redis/redis.go:154-163 | with a window under a millisecond, which only an explicit option can set, the counter never expires and the limit is for ever |
| RateLimit.RecoversExactly | pkg/redis/redis.go:18-28 | an exhausted user is let through again exactly when the window is positive, and then one window later |
| ListCache.ListKeyInjective | internal/product/port/http/handlers.go:187-199 | a list key determines its version and its query digest |
| ListCache.ListKeysAreDistinct | internal/product/port/http/handlers.go:187-199 | for queries on which the digest does not collide, the handler's keys of different versions or queries differ |
| ListCache.DigestsExist | internal/product/port/http/handlers.go:197-198 | digests without collisions exist for any 64 queries, so what the theorems ask of the keys can be met |
| ListCache.RunKeeps | internal/product/port/http/handlers.go:79-109 | in every run, what is cached under a version for a query in use was read no earlier than the bump to it and answers that query |
| ListCache.NoOlderThanTaken | internal/product/port/http/handlers.go:79-109 | in every run, evictions and failures included, a list request shows every update bumped up to the version it went on with, count and rows |
| ListCache.ListsAreFresh | internal/product/port/http/handlers.go:201-220 | without an eviction of the version key, a list request whose own version read worked shows every update bumped before it arrived |
| ListCache.FreshExactly | internal/product/port/http/handlers.go:201-220 | a request that went on with version v is certain to show bump b, made before it arrived, exactly when b is at most v |
| ListCache.FailedVersionReadIsStale | internal/product/port/http/handlers.go:201-211 | for every bump a run, without evictions, in which a failed version read brings back rows older than it |
| ListCache.EvictedVersionIsStale | internal/product/port/http/handlers.go:201-211 | for every version and later bump a run in which the evicted version key counts up again and brings back older rows |
| ListCache.ProductHandler.ListProducts | internal/product/port/http/handlers.go:79-109 | the handler's page answers its query and, if it read the version, is no older than the last bump; with no fault it is the cached page, or one read now and cached |
| ListCache.ProductHandler.UpdateProduct | internal/product/port/http/handlers.go:157-181 | an update that succeeds changes the table once and, unless a call failed, is bumped once at its own revision; one reported as failed may be in the table and is not followed by a bump |
| Lifecycle.SendNeverBlocks | internal/server/lifecycle/runner.go:26-38 | a service with an error to report always finds room in the channel |
| Lifecycle.ReturnsFirstError | internal/server/lifecycle/runner.go:45-67 | Run returns after all services, with nil exactly when none failed and else the first error sent |
| Lifecycle.FailureCancels | internal/server/lifecycle/runner.go:30-36 | a failed service has cancelled the others' context before it is gone |
| Lifecycle.NeverStuck | internal/server/lifecycle/runner.go:39-67 | until Run has returned some goroutine can move |
| Lifecycle.BoundedSteps | internal/server/lifecycle/runner.go:18-68 | no schedule of n services takes more than 4n + 5 steps |

## Left out

- HTTP and gRPC routing, authentication, configuration, metrics, logging and generated code: no logic of the pipeline.
- PostgreSQL, GORM and Redis internals, and retries inside the Redis client, which could apply one command twice.
- Transactions.NoDeadlock: covers inventory rows only; a duplicate insert waiting on the unique index, or two cancellations waiting on one order row, are not part of it.
- Transactions.UnitsConserved: counts a stock set as its difference at write time, as the source reads and saves the row without a transaction.
- Status changes to in-progress and done: no service performs them; an initial database may hold them. `UpdateOrder` is unused.
- Order lines as a table of their own: they are part of the order value, so setting `OrderID` on each line is not visible.
- Float prices in stored orders: the tables hold minor units, and module Money relates them to floats.
- Money.RoundTripExactly: is about an error model, not about IEEE 754 bit patterns; a rounding that loses an amount above the bound need not be the hardware's.
- Money.RoundTripAboveBound: shows the loss for one rounding of the error model, which need not be the hardware's.
- Money.AcceptedIsNearWhole: reals just below 2^63 that no float takes round to 2^63, so it allows one more than int64 holds, and it adds the rounding errors to the tolerance.
- OrderService.SetStock: a failure after the fresh row was saved leaves a row at zero; the contract speaks of quantities.
- OrderService.PlaceOrder: an internal error does not say whether the order was placed, because a commit may take effect and still report an error; the same holds of OrderService.CancelOrder and of a product update.
- Answers.AnsweredAsSpecified: orders with an empty id are shut out; the code would reply but keep no record.
- ConsumerLoop.RedisConsumer.RunOnce: waiting for the first message is not modelled; a read sees the stream of one moment.
- OrderService.AdjustStock: a statement outside a transaction that takes effect and still reports an error is not an outcome of it.
- Soft deletes, timestamps other than the outbox's, order codes and preloading of products.
- `ListPendingReady`, `ListPendingReadyLocked` and `OutboxService.Publish`: not used by the worker.
- The consumer's stream names, group names and key prefixes are fixed; trimming of streams and deletion of groups are not modelled.
- ConsumerLoop.RedisConsumer.ClaimStaleOnce: takes any pending messages, so the minimum idle time is over-approximated and `NextClaimStart` is not reported; that stale messages are ever re-claimed is not claimed.
- The product-detail cache: a slow reader can store an old value after the delete, so only its expiry bounds staleness.
- ListCache.ProductHandler.ListProducts: runs alone and reads count and rows at one revision; the machine separates them.
- Panics in services, and services that never return: `lifecycle.Run` then waits, as the source does.
- Users, token versions, cart, paging, order-by lists and option defaults: easy members.
