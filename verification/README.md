# Order, payment and notification: what the saga keeps

A Dafny model of the three services: the order service (`CreateOrder`,
`CancelOrder`, `GetOrder`, `SubscribeToOrder`), the payment service
(`ProcessPayment`) and the notification service (`ProcessPaymentCompleted` and
its consumer loop), with the two SQL tables, the Redis keys, the RabbitMQ queue
and the in-process subscriber registry between them.

`Domain`, `Tables`, `Gateway`, `Money` and `Powers` hold the values, the effect of
one SQL statement, and the pure case splits and arithmetic. Beside them there are
four kinds of module.

* **Transition systems.** `Saga` is the order and payment services: any number of
  calls at once, each a program counter, each database, Redis, gRPC or broker
  operation one atomic step that may fail before or after it took effect, and
  crashes between any two steps. `Notifier` is the notification service with
  explicit time. `RateLimiter` is the fixed window. Theorems about them start
  with `Reached(actions)` or `Run(Init(..), actions)` and hold for every run.
  The `Trail` of a `Saga` state (statuses a row has had, its last write, what went
  wrong for an order) is bookkeeping that no step reads.
* **Imperative code.** `Repositories`, `UseCases`, `NotificationUseCase`,
  `Middleware`, `Registry`, `Stream` and `Consumer` hold the classes, arrays and
  loops of the source, each method proved against a specification.
* **The bridges.** `WholeCalls` says as functions what a call does when nothing
  else runs; the methods of `UseCases` compute exactly these functions, and
  `WholeRuns` proves that each is a run of `Saga` in which only that call (and the
  rpc it makes) moves. `NotificationUseCase` and `Middleware` do the same in one
  step: they carry the run of `Notifier` or `RateLimiter` that they are.
* **Results.** `SagaTheorems`, `Stability`, `CacheStability`, `Orphans`, `Staleness`,
  `Events`, `Notices`, `CacheAside`, `AtMostOnce`, `Pacing`, `Provenance`, `Deliveries`, `NoLoss`,
  `EndToEnd`,
  `Delivery` (from notify through a subscriber's channel to its stream, with the
  orders that the saga and the stream share), and
  `Witnesses`, which holds runs that show what the code does not guarantee.

`dafny verify dfyconfig.toml` checks everything.

## What turned out not to hold

* A terminal status may change: a cancel that read Pending overwrites Paid
  (`Witnesses.PaidMayBecomeCancelled`). `Stability.StableIffSettled` gives the
  exact condition under which it cannot.
* A cache entry may outlive the deletion that should have removed it, with no
  operation failing (`Witnesses.ADeletedVersionComesBack`);
  `CacheStability.FreshIffSteady` says exactly when it still can.
* A message may be lost, by a crash between SetNX and Send
  (`NoLoss.ACrashAfterTheLockLosesIt`) or without any crash by a lost nack
  (`NoLoss.AFailedSettlementLosesIt`): the redelivery is skipped and acked.
  `NoLoss.ExactlyTheHarmlessStepsKeepAll` tells the crashes and failed settlements
  that lose a message from those that do not.
* At most one email per 24 hours depends on the configuration, exactly as
  `Pacing.ApartIffWithinADay` says: with MAX_RETRIES of 16 or more the sleeps alone
  outlast the key (`Pacing.SixteenRetriesAreTooMany`).
* The amount text is right for all amounts up to n exactly if n is at most
  100 * 2^46 cents (`Money.AllReadBackIff`); it is wrong for the next amount
  (`Money.OneCentMoreDoesNot`).
* A subscriber may miss the terminal update, and its stream then waits for ever
  (`Delivery.PaidIsMissed`). The stream ends with the last update exactly if that
  finds the buffer empty, or if the order that is in the buffer or in the stream's
  hands is terminal by then itself (`Delivery.LastUpdateIff`), as the saga's own
  order is: then the update is dropped and told all the same
  (`Delivery.ADroppedUpdateIsTold`).
* A stream may end with nil having told nothing but Pending
  (`Delivery.PaidIsNotTold`), exactly if the order turned terminal between the two
  reads of its status (`Delivery.EndsUntoldIff`).
* `SubscribeToOrder` hangs in its first push exactly when GetOrder answered and a
  `notify` for the order came between the registration and the push
  (`Registry.Subscribers.SubscribeToOrder`).
* Subscribers may be told Paid, and the client be answered Paid, of an order whose
  row stays Pending (`Witnesses.PaidIsToldOfAPendingRow`): exactly if the update is
  lost (`UseCases.OrderUseCase.CreateOrder`), and in any run only if it is reported
  as failed (`Notices.NoticesAreReal`).
* An email does not mean an authorised payment: declined payments are published
  and mailed too (`EndToEnd.ADeclinedPaymentIsMailed`). It tells of an authorised
  one exactly if its amount is within the limit (`EndToEnd.AuthorizedIffWithinLimit`).
* An address may be shut out for ever by one failed EXPIRE
  (`RateLimiter.AFailedExpireShutsOut`); `RateLimiter.AdmittedAgainIff` says exactly
  when it still can be admitted.

## Where code and documentation differ

The model follows the code. The repository's README.md speaks of an in-memory
`sync.Map` (line 97; the code uses a Redis SetNX), of an ack for every message
(line 97; the code nacks a failed one to the dead-letter queue), of the key
`processed:{payment_id}` and of exactly-once execution (line 116; the key is the
message id, and what holds is at most once per TTL).

## Model

| member | source | states |
|---|---|---|
| `SagaTheorems.PaidIsBackedByMoney` | internal/usecase/order_usecase.go:71-90 | in every reachable state of any number of concurrent calls and faults, a Paid order has exactly one payment row, which is Authorized, of the order's amount, at most 100000, and has a transaction id |
| `SagaTheorems.AtMostOneChargePerKey` | internal/usecase/order_usecase.go:50-71 | however requests are retried and key lookups fail, there is at most one order row per idempotency key and at most one payment row for it |
| `SagaTheorems.ReplaysAgree` | internal/usecase/order_usecase.go:50-67 | every CreateOrder that succeeds for a key answers with the stored row's id, customer, item, amount, time and key, whatever payload the retry carried |
| `SagaTheorems.OnlyKnownStatuses` | internal/usecase/order_usecase.go:61-116 | only the four named statuses are ever stored, cached, notified or answered |
| `SagaInvariant.RunKeeps` | internal/usecase/order_usecase.go:49-147 | the invariant that ties the tables, the cache, the replies on their way and every call in flight together survives every step of every run |
| `SagaFrames.FrameMove` | internal/usecase/order_usecase.go:49-147 | a step of one call leaves every other call where it was, and may only start the rpc it makes |
| `SagaFrames.RowAfterStep` | internal/usecase/order_usecase.go:74-111 | a row's status changes only by the update of its own saga or by a cancel of it |
| `Gateway.ReplyRoundTrip` | internal/infrastructure/payment_client.go:40-55 | the client never answers with a third verdict, and the order status derived from a reply is the one the payment row's verdict and amount call for |
| `Stability.NeverReopens` | internal/usecase/order_usecase.go:74-111 | no interleaving brings an order back to Pending |
| `Stability.SettledIsStable` | internal/usecase/order_usecase.go:87-111 | a non-Pending status whose saga is past its update, with no cancel still holding a Pending read, is never changed by any continuation |
| `Stability.StableIffSettled` | internal/usecase/order_usecase.go:87-111 | and that condition is exact, for every row: otherwise, a Pending row included, some continuation changes the status |
| `Stability.TerminalIsAbsorbingBetweenCalls` | internal/usecase/order_usecase.go:97-119 | once all calls have answered or died, Paid, Failed and Cancelled are absorbing |
| `Witnesses.PaidMayBecomeCancelled` | internal/usecase/order_usecase.go:98-111 | for any payable request, a run in which the order is Paid and later Cancelled |
| `Witnesses.ADeletedVersionComesBack` | internal/usecase/order_usecase.go:131-143 | a run without any failure after which the cache holds the Pending version of a Cancelled order |
| `Witnesses.PaidIsToldOfAPendingRow` | internal/usecase/order_usecase.go:87-94 | for any payable request, a run in which the update is lost, Paid is answered and notified, and the row stays Pending |
| `Notices.CreatedIsTold` | internal/usecase/order_usecase.go:69-94 | in every run, a CreateOrder that has answered with an order notified it first as Pending and then as answered, and nothing but cancels notified it otherwise |
| `Notices.BrokenIsTold` | internal/usecase/order_usecase.go:69-77 | one that answered that payment is unavailable notified its order once, as Pending |
| `Notices.RejectedIsNotTold` | internal/usecase/order_usecase.go:65-67 | one whose insert failed notified nothing |
| `Notices.CancelledIsTold` | internal/usecase/order_usecase.go:111-118 | a CancelOrder that has succeeded notified the order as Cancelled |
| `Notices.NoticesAreReal` | internal/usecase/order_usecase.go:61-116 | no subscriber is told a status that the row never had, unless the row's status update was reported as failed |
| `Orphans.OrphanHasACause` | internal/usecase/order_usecase.go:65-95 | an authorised payment whose order is not Paid, with its saga over, implies a lost or failed reply, a failed status update, a crash, a cancel, or a payment through the direct door |
| `Orphans.CleanSagaAgrees` | internal/usecase/order_usecase.go:71-94 | with none of these the stored row, the answer and the payment verdict agree, and the order is Paid exactly when its amount is at most 100000 |
| `Staleness.AnswersAreRealVersions` | internal/usecase/order_usecase.go:121-147 | in every interleaving GetOrder answers a version its row really had, equal to the present row in every column but the status |
| `Staleness.StaleEntryHasACause` | internal/usecase/order_usecase.go:74-114 | an entry differs from its row only if it was read before the last write and the writer is still short of its Delete, or that Delete failed or never came, or the reader's Set came after the write |
| `Staleness.EntriesAreNotProlonged` | internal/infrastructure/redis_cache.go:44-57 | an entry stays as it was set, is replaced by a later Set, or is gone |
| `Staleness.EntryIsGoneAfterTtl` | internal/infrastructure/redis_cache.go:25-42 | ttl after its Set, no read is answered from it |
| `CacheStability.FreshIffSteady` | internal/usecase/order_usecase.go:74-143 | for every row, the cache stays right in every failure-free continuation, and then in every continuation at all, exactly when the status is settled, the live entry is the row, and no reader is about to set another version |
| `Events.NoPhantomEvents` | payment/internal/usecase/payment_usecase.go:51-65 | every published event is the order id, amount and status of a committed payment row, addressed to that order's customer; no order has two events and no two events have one message id |
| `CacheAside.CacheIsTransparent` | internal/usecase/order_usecase.go:49-147 | for every sequence of whole calls, with entries lost or expiring at will and any failing reads and Sets, each answer is that of the plain tables, or the current row where the table could not be read, if the writes and deletions of cancels are clean |
| `CacheAside.NothingShows` | internal/usecase/order_usecase.go:121-147 | and if the table can be read whenever it is asked, all answers are those of the plain tables |
| `CacheAside.CreateStaysCoherent` | internal/usecase/order_usecase.go:49-95 | no fault of a CreateOrder can make the cache differ from the table |
| `CacheAside.CleanWriteIsNeeded` | internal/usecase/order_usecase.go:111-114 | a cancel of a cached Pending order keeps the cache equal to the table exactly when its write changed nothing, or was acknowledged and its deletion got through |
| `WholeRuns.CreateIsARun` | internal/usecase/order_usecase.go:49-95 | CreateOrder run alone is a run of the transition system of this call and its rpc, with the same stores and the same answer |
| `WholeRuns.CancelIsARun` | internal/usecase/order_usecase.go:97-119 | the same of CancelOrder |
| `WholeRuns.GetIsARun` | internal/usecase/order_usecase.go:121-147 | the same of GetOrder |
| `WholeRuns.PayRun` | payment/internal/usecase/payment_usecase.go:29-68 | the same of ProcessPayment on the server |
| `UseCases.OrderUseCase.CreateOrder` | internal/usecase/order_usecase.go:49-95 | under every combination of faults: a row with the key answers and nothing happens; else when the insert fails; else the stored row and the answer are the request's, Paid up to 100000 and Failed beyond or when payment is unavailable, with exactly when that is; which cache entry goes; and that Pending and then the answer is notified. It computes the whole-call function |
| `UseCases.OrderUseCase.PayFor` | internal/usecase/order_usecase.go:71-94 | its second half, from the rpc on |
| `UseCases.OrderUseCase.CancelOrder` | internal/usecase/order_usecase.go:97-119 | for each of the four errors and for success exactly when it comes, by the row's status and the faults; what each changes; success writes only this row, drops its cache entry and notifies it as Cancelled. It computes the whole-call function |
| `UseCases.OrderUseCase.GetOrder` | internal/usecase/order_usecase.go:121-147 | a live entry answers and nothing changes, else the table does and its row is cached for ttl; a cache equal to the table stays so, and then the answer is the table's row |
| `UseCases.OrderUseCase.AuthorizePayment` | internal/infrastructure/payment_client.go:26-56 | the rpc: exactly when it yields a verdict, which is Declined exactly over 100000; a lost request, the handler's reply, or a lost reply |
| `UseCases.PaymentUseCase.ProcessPayment` | payment/internal/usecase/payment_usecase.go:29-68 | an existing payment is reported and nothing changes; else a row is inserted, declined exactly over 100000 and with a transaction id otherwise, and after the commit an event is queued for its order, amount and status, addressed to the order's customer, under a message id of its own |
| `UseCases.PaymentUseCase.Handle` | payment/internal/delivery/grpc/handler.go:37-70 | the guards; a status exactly when a new row was committed and reported, and it says Declined exactly over 100000; or an error |
| `Repositories.PostgresOrder.Create` | internal/repository/postgres_order.go:19-23 | the insert succeeds only for a new id, a new key and a positive amount; keys stay unique |
| `Repositories.PostgresOrder.GetByID` | internal/repository/postgres_order.go:25-36 | the row of that id, or an error |
| `Repositories.PostgresOrder.GetByIdempotencyKey` | internal/repository/postgres_order.go:38-49 | the only row with that key, or an error |
| `Repositories.PostgresOrder.UpdateStatus` | internal/repository/postgres_order.go:51-55 | only the status of that row changes; an unknown id is no error |
| `Repositories.PostgresPayment.Create` | payment/internal/repository/postgres_payment.go:42-49 | the insert succeeds only for a new id and an order without a payment; order ids stay unique |
| `Repositories.PostgresPayment.GetByOrderID` | payment/internal/repository/postgres_payment.go:51-72 | the only payment of that order, or an error |
| `Repositories.ReadsTheLastSet` | internal/infrastructure/redis_cache.go:25-65 | after any commands, a Get that gets through answers with the last Set of the order if its ttl has not run out and no Delete came after it, and with nothing otherwise |
| `Repositories.ReadAfterSet` | internal/infrastructure/redis_cache.go:44-57 | a Get d after a Set finds the order exactly when d is less than ttl, and other orders as if nothing had been set |
| `Repositories.ReadAfterDelete` | internal/infrastructure/redis_cache.go:59-65 | after a Delete no Get finds the order, and other orders are found as before |
| `AtMostOnce.AtMostOnePerTtl` | notification/internal/usecase/notification_usecase.go:47-95 | under any interleaving of workers, duplicates, failed Redis calls and crashes, however long calls take, two successful sends of one message come from calls whose SetNX steps are at least 24 hours apart, if no call deletes a live key that is not its own |
| `Pacing.ApartIffWithinADay` | notification/internal/usecase/notification_usecase.go:47-95 | with n retries and given bounds on sends, wake-ups and Redis replies, that spacing always holds exactly when 2^(n+1)-2 seconds, n+1 sends, n late wake-ups and two Redis replies take less than 24 hours |
| `Pacing.TooLongLetsTwoSend` | notification/internal/usecase/notification_usecase.go:90-93 | otherwise a run within the bounds in which a call deletes another call's key and two calls send in one instant |
| `Pacing.SixteenRetriesAreTooMany` | notification/internal/usecase/notification_usecase.go:70-76 | with 16 retries or more the spacing fails whatever the bounds; with 15 it holds exactly when everything but the sleeps takes less than 20866 seconds |
| `Pacing.AtMostOnePerDayWithinBounds` | notification/internal/usecase/notification_usecase.go:68-88 | what the bound means for any two sends of one run |
| `Pacing.BackoffClosed` | notification/internal/usecase/notification_usecase.go:70-76 | the sleeps of n retries add up to 2^(n+1)-2 seconds |
| `Deliveries.EveryDeliveryIsAccountedFor` | notification/internal/delivery/rabbitmq_consumer.go:157-175 | in every run an event has been published as often as it is queued, with a worker, dead-lettered, or acked after being skipped or mailed; and it is dead-lettered as often as processing had failed and the nack got through |
| `NoLoss.NothingIsLost` | notification/internal/delivery/rabbitmq_consumer.go:157-175 | every published message is at every moment queued, in flight, emailed or dead-lettered, if each crash and failed settlement is harmless: the message has no live key, or its worker was not in charge of it, or it is emailed, dead-lettered or in charge of another worker |
| `NoLoss.KeptIffSafeAnywhere` | notification/internal/usecase/notification_usecase.go:47-58 | in whatever state crashes and failures have led to, no fault-free continuation loses a message exactly when it is emailed, dead-lettered or somebody is in charge of it, or it has no live key and is queued or about to be locked |
| `NoLoss.ExactlyTheHarmlessStepsKeepAll` | notification/internal/delivery/rabbitmq_consumer.go:157-175 | after harmless steps only, one more step leaves every published message safe from every fault-free continuation exactly when it is harmless too |
| `NoLoss.LocksStay` | notification/internal/usecase/notification_usecase.go:47-58 | the key step: a message with a live key has been sent or dead-lettered, or somebody is in charge of it |
| `NoLoss.ACrashAfterTheLockLosesIt` | notification/internal/usecase/notification_usecase.go:55-58 | a run with one crash after which the message is nowhere |
| `NoLoss.AFailedSettlementLosesIt` | notification/internal/delivery/rabbitmq_consumer.go:172-175 | a run without a crash, with a SetNX wrongly reported as failed and a lost nack, after which the message is nowhere |
| `EndToEnd.NothingInFlightIsPhantom` | payment/internal/usecase/payment_usecase.go:51-65 | if the queue is fed only by ProcessPayment, every queued, in-flight, dead-lettered or emailed event is a committed payment row's, addressed to that order's customer |
| `EndToEnd.OneEmailPerOrderPerTtl` | notification/internal/usecase/notification_usecase.go:43-84 | and emails for one order are as far apart as emails for one message |
| `EndToEnd.AuthorizedIffWithinLimit` | payment/internal/usecase/payment_usecase.go:35-64 | every emailed event tells of an authorised payment exactly if its amount is at most 100000, and of a declined one otherwise |
| `EndToEnd.ADeclinedPaymentIsMailed` | notification/internal/usecase/notification_usecase.go:41-84 | for any request over the limit, a run of the services and one of the notifier fed by it that mails the declined payment |
| `NotificationUseCase.ProcessPaymentCompleted` | notification/internal/usecase/notification_usecase.go:41-96 | a call is a run of the notifier in which only its worker moves; nothing is sent without the lock, which lasts 86400 seconds; at most n+1 attempts with one and the same email, the first success ends it; if all fail, 2^(n+1)-2 seconds were slept and the key is gone unless the Del failed |
| `NotificationUseCase.Retry` | notification/internal/usecase/notification_usecase.go:70-88 | the loop: how many attempts, how much sleep, and what was sent |
| `NotificationUseCase.NoOverflowUpTo33` | notification/internal/usecase/notification_usecase.go:73 | no sleep overflows an int64 of nanoseconds exactly when n is at most 33 |
| `NotificationUseCase.EmailStatesTheEvent` | notification/internal/usecase/notification_usecase.go:60-66 | the email names the event's customer and order, and its text reads as the event's amount |
| `Money.AmountReadsBack` | notification/internal/usecase/notification_usecase.go:60 | for 0 <= amount <= 100 * 2^46 (so for all below 2^52) the quotient, rounded to nearest as in section 4.3.1 of IEEE 754-2019, prints with two decimals as text that parses back to the amount |
| `Money.OneCentMoreDoesNot` | notification/internal/usecase/notification_usecase.go:60 | for the next amount the only correctly rounded quotient prints one cent too many |
| `Money.AllReadBackIff` | notification/internal/usecase/notification_usecase.go:60 | so all amounts up to n read back exactly if n is at most 100 * 2^46 |
| `Consumer.Loop.Start` | notification/internal/delivery/rabbitmq_consumer.go:131-179 | under every schedule: never more than two tokens, those of unfinished workers; one settlement per delivery, an ack exactly if processing returned nil; on cancellation the loop returns only when everything received is settled |
| `Consumer.Loop.Settle` | notification/internal/delivery/rabbitmq_consumer.go:166-175 | ack after nil, nack after an error, never twice |
| `Consumer.Loop.Acquire` | notification/internal/delivery/rabbitmq_consumer.go:147 | a token is taken only while fewer than two are held |
| `Consumer.Loop.Wait` | notification/internal/delivery/rabbitmq_consumer.go:137-141 | the loop returns only with the wait group at zero |
| `RateLimiter.SlidingBound` | internal/delivery/http/middleware.go:22-46 | however INCR and EXPIRE of different requests interleave, and whether or not an EXPIRE succeeds, any half-open interval of one window admits at most 2 * limit - 1 requests of an address, and none if the limit is 0 |
| `RateLimiter.BoundIsReached` | internal/delivery/http/middleware.go:22-46 | for every limit of at least 1 and every window of at least two ticks, a run that reaches that bound |
| `RateLimiter.LifetimeBound` | internal/delivery/http/middleware.go:33-46 | each lifetime of a counter admits at most limit requests, and the next starts at least one window later |
| `RateLimiter.LivesExactlyAWindow` | internal/delivery/http/middleware.go:33-39 | in every run, a counter whose opening request set its expiry at time t lives at a later time u exactly if u < t + window, and the next one starts no earlier |
| `RateLimiter.AdmittedAfterAWindow` | internal/delivery/http/middleware.go:22-46 | with a limit of at least 1, the first request from t + window on gets count 1 and is admitted |
| `RateLimiter.AdmittedAgainIff` | internal/delivery/http/middleware.go:22-46 | with a limit of at least 1, some continuation admits the address again exactly if its counter is gone, under the limit, has an expiry or is still being opened |
| `RateLimiter.AFailedExpireShutsOut` | internal/delivery/http/middleware.go:33-43 | a run with one failed EXPIRE after which no continuation admits the address |
| `Middleware.RateLimitMiddleware.Handle` | internal/delivery/http/middleware.go:15-47 | a running counter goes up by one and keeps its expiry; otherwise a new one expires a window from now, unless EXPIRE fails; the request passes exactly if its count is within the limit, and when INCR fails. It is one more hit of that run |
| `Middleware.TwoRequests` | internal/delivery/http/middleware.go:15-47 | at any time, two requests d apart from an address without a counter share one exactly if d is less than the window |
| `Registry.Subscribers.Register` | internal/usecase/order_usecase.go:154-158 | subscribing keeps every registered channel open, filed once under its own order and holding at most one value of it |
| `Registry.Subscribers.FirstPush` | internal/usecase/order_usecase.go:161-164 | the first push goes through exactly if the buffer is empty, and never hits a closed channel |
| `Registry.Subscribers.SubscribeToOrder` | internal/usecase/order_usecase.go:153-164 | whatever is notified between the registration and the push, the push blocks exactly if GetOrder answered and one of those updates was for this order; the channel holds the first update or else the answer |
| `Registry.Subscribers.Notify` | internal/usecase/order_usecase.go:182-197 | each subscriber of the order with an empty buffer gets the update, the others keep what they have, and no send hits a closed channel |
| `Registry.Subscribers.SendTo` | internal/usecase/order_usecase.go:191-196 | one send of a notify: it reaches the one subscriber and only an empty buffer, whatever happened since the last send |
| `Registry.Drive` | internal/usecase/order_usecase.go:153-197 | under every interleaving of registrations, single sends, first pushes, receives and cleanups the registry stays consistent, no send hits a closed channel, and exactly the calls that have not been cleaned up are registered |
| `Registry.Subscribers.Cleanup` | internal/usecase/order_usecase.go:166-177 | exactly this channel is unregistered, then closed; every order goes on listing its other channels in the order of their registration |
| `Registry.OrderedIsFiled` | internal/usecase/order_usecase.go:153-180 | lists in the order of registration hold each registered channel once and under its own order only |
| `Registry.OrderedAfterDropping` | internal/usecase/order_usecase.go:169-175 | cutting a channel out of its list is the same as no longer counting it among the registered |
| `Registry.WithoutCutsOut` | internal/usecase/order_usecase.go:172 | exactly the one channel goes, what stood before and after it stays in order |
| `Registry.CutOut` | internal/usecase/order_usecase.go:172 | the shift within the backing array leaves the slice without its i-th element |
| `Registry.Append` | internal/usecase/order_usecase.go:157 | append into spare capacity or into a larger array reads as the old list and the new channel |
| `Stream.SubscribeToOrderUpdates` | internal/delivery/grpc/order_handler.go:25-86 | the error answers; each update sent is its order column for column, with its own code for each of the four statuses; and the first wake-up that does not let the loop go on says how it ends |
| `Stream.SentSaysTheOrder` | internal/delivery/grpc/order_handler.go:52-74 | the same of the updates of any feed |
| `Stream.ShapeOfStream` | internal/delivery/grpc/order_handler.go:42-85 | if only known statuses arrive, the updates are Pending ones and then at most one terminal one, after which the stream ends without error; they are the first orders of the feed, none left out |
| `Delivery.EverySubscriptionHasTheShape` | internal/usecase/order_usecase.go:153-197 | in a running system, whatever is notified before and after the first push of a subscription, and however the saga's writes to the orders, the receives and the two reads of a status fall, the stream has that shape |
| `Delivery.TheLoopFollows` | internal/delivery/grpc/order_handler.go:42-85 | what a subscription sends and how it ends is what the handler's loop makes of its wake-ups |
| `Delivery.Conservation` | internal/usecase/order_usecase.go:191-196 | what is received, followed by what is buffered, is what was buffered, followed by the offers that found the buffer empty |
| `Delivery.ReceivedNext` | internal/usecase/order_usecase.go:191-196 | an order offered to an empty buffer stays there until it is the next to be received |
| `Delivery.DroppedWithoutTrace` | internal/usecase/order_usecase.go:191-196 | an offer that finds the buffer full, or is for another order, changes nothing at all, then or later; a write to the order is a step of its own |
| `Delivery.StreamEndsIff` | internal/delivery/grpc/order_handler.go:42-85 | from any moment after the last notify and write, a stream that goes on ends with nil exactly if the order in its hands or in the buffer is terminal by then, and otherwise waits for ever; it does so without telling it exactly if it was caught between its two reads |
| `Delivery.LastUpdateIff` | internal/delivery/grpc/order_handler.go:42-85 | with a last update of a terminal status, whatever came before, that means: exactly if the update finds the buffer empty, or what is buffered or in hand is terminal by then too |
| `Delivery.EndsUntoldIff` | internal/delivery/grpc/order_handler.go:52-83 | in every run in which no terminal status is taken back, a stream that is over ended with nil and without a terminal update exactly if some write made an order terminal between the two reads of its status |
| `Delivery.PaidIsMissed` | internal/delivery/grpc/order_handler.go:42-85 | with the Pending answer of GetOrder still in the buffer, the notify of Paid is dropped and the stream waits for ever |
| `Delivery.ADroppedUpdateIsTold` | internal/usecase/order_usecase.go:69-92 | with the saga's own order in the buffer, the notify of Paid is dropped, and the stream tells Paid and ends |
| `Delivery.PaidIsNotTold` | internal/usecase/order_usecase.go:69-92 | with the saga's own order told as Pending and Paid before it is looked at again, the stream ends with only Pending told |
| `Delivery.Follow` | internal/delivery/grpc/order_handler.go:42-85 | notify calls, writes to the shared orders, steps of the handler's loop and its end, in any order on one registered channel, leave and send exactly what the above is proved about |
| `Delivery.Subscription` | internal/delivery/grpc/order_handler.go:39-85 | a subscription from its registration to the end of its stream: blocked in its first push exactly if GetOrder answered and the order was notified before, or else those updates and that end, and cleaned up exactly if the stream has ended |

## Left out

- Stream.SubscribeToOrderUpdates: the feed is any finite run of wake-ups; a stream that waits for ever is one whose feed has ended.
- Consumer.Loop.Start: the schedule is any finite run of turns; that every worker comes to its end is not claimed.
- Middleware.RateLimitMiddleware.Handle: an INCR that reports an error is taken not to have counted, because the theorems leave Redis errors out.
- Delivery.StreamEndsIff: about streams that go on: one whose Send fails or whose client leaves ends with that error, as `Delivery.Step` says. The comparisons in order_handler.go:81 are one read of the status, made after the one the update was built from.
- Delivery.EverySubscriptionHasTheShape: that an order which others hold is written only once, from Pending to the saga's result, is read off order_usecase.go:60-115 (a cancel writes before it notifies) and required of the writes.
- CacheStability.FreshIffSteady: an rpc that times out counts as no failure of a store.
- A step may be done and acknowledged, not done, or done but reported as failed (`Tables.Fault`); nothing else can go wrong with it. A crash removes a call between two steps, and an rpc outlives the call that made it.
- UUIDs are fresh by construction (`Domain.Uuid`): two calls of `uuid.New` never agree, and no client text is one of them in advance.
- Redis losing its data or evicting keys is excluded for the notification locks and the rate limiter; cache entries may vanish at any time. A failing INCR is not counted by the limiter's theorems; INCR's moment is taken as the moment of the request. EXPIRE has whole seconds in Redis; the window is any natural number here.
- `CACHE_TTL`, the limit, the window and `MAX_RETRIES` are non-negative parameters; with more than 33 retries the sleeps would overflow and the timed model no longer applies.
- A Send that fails is taken not to have delivered; if the mail went out all the same, it counts as a failure. Manual replay of the dead-letter queue is not modelled.
- The repositories report a missing row and a failed query by different errors; the use cases treat both alike, and so does the model. Log lines are left out.
- The stream shares one `*domain.Order` with the saga, which reassigns its status without a lock: `Registry` and `Delivery` carry the shared order. `Saga` and `UseCases` record the order as it was when it was passed to notify. Torn reads of a status are left out.
- Not guaranteed by the code and not claimed: that every subscriber sees the final status, that `SubscribeToOrder` returns, that every payment is notified (the publish error is ignored).
- On the path where the delivery channel is closed the dispatcher returns without waiting (`Consumer.Loop.CloseChannel`); nothing is claimed there about unsettled deliveries.
- `GetByAmountRange`, `ListByStatus`, `ListPayments`, the HTTP handlers and their error codes, the binding and JSON layers, the wiring in `main.go`, connecting and declaring queues, and the two email senders: easy members or plumbing.
