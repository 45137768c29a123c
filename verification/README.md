# Rocket factory: a verified model of the order saga

A Dafny model of the part of Rocket Factory in which orders, parts, payments and ships meet: the inventory allocator
under row locks, the order saga over two Kafka topics, the consumer loop that feeds it, and the slot validation that
decides which orders may exist. Individual functions of the system are short; what is proved here is what they
guarantee together, over every interleaving, every redelivery and every run.

Verify everything with `dafny verify dfyconfig.toml`.

## Reading order

| file | content |
|---|---|
| `Prelude.dfy` | distinct lists, the pigeonhole count, what a permutation preserves |
| `Parts.dfy` | catalogue rows, the three stock operations, the `Part` entity that changes in place |
| `Inventory.dfy` | `BatchSpec`: what a batch call promises. `InventoryService`: the repository and service methods proved against it |
| `RowLocks.dfy` | any number of transactions under row locks: serializability, deadlock freedom, termination |
| `Slots.dfy` | slot resolution and compatibility rules |
| `Orders.dfy` | order items, totals in int64, create/get round trip |
| `Saga.dfy` | the saga as a machine of steps |
| `SagaInvariants.dfy` | the invariant of every run, faulty or not |
| `SagaTheorems.dfy` | the run theorems: conservation, duplication, read-back, acceptance, status safety, refinement |
| `SagaFaults.dfy` | what a handler leaves behind when its transaction is lost |
| `OrderService.dfy` | Create, Pay, Cancel, the ShipAssembled handler and Get as methods, each a run of the machine |
| `ClaimLoop.dfy` | the Kafka consumer loop over any number of sessions |
| `Pipeline.dfy` | the saga joined with the consumers of both topics, one a partition |
| `Completion.dfy` | which paid orders can still be completed, and runs that show why the conditions are needed |
| `Session.dfy`, `Closer.dfy` | the session header across hops; graceful shutdown |

## How the saga is modelled

A step of the machine is one effect that others can see: taking or dropping the lock on an order row, a remote call
that took effect, a published message, a commit. Requests interleave freely. An order under lock records how far the
request holding the lock has come; requests that still wait have no effect and are not part of the state. Any message
in either log may be delivered any number of times in any order. That is more than the consumers do, so what holds of
every run of this machine holds of the system; it says nothing about what can still happen.

What can still happen is stated on `Pipeline`, which adds the consumers. Messages are keyed by the order, so each topic
is split into lanes (partitions) by order uuid; each lane has a consumer of `ClaimLoop` with its position and its mark,
hands over one message at a time, and learns from the handler whether it succeeded, failed or was cancelled. Every run
of the whole is a run of the saga machine (`Pipeline.IsSagaRun`), so the run theorems carry over.

`Abort` rolls back the lock holder's order-side transaction at any point. It is a *fault* when a remote effect or a
publication has already happened (as is an insert that fails after the reservation). A request that gives up while
its remote call is still running leaves an orphan behind, and the call may take effect at any later time, whatever
has become of the order by then (`LateCharge`, `LatePublish`, `LateRelease`, `LateCommit`); that is a fault too. Every
rollback before the effect counts as such a request, whether or not its call was sent. A late reservation is a
reservation whose insert fails. A run without faults is a *clean run*. The ledger counts effects and faults per order
and per part; nothing in the system reads it. Most theorems hold in every run and say exactly which fault counter they
depend on; refinement is about clean runs.

A request counts from its remote effect on (`View`): an order is PAID once the payment service has charged,
CANCELLED once the inventory has released, ASSEMBLED once it has committed the parts. Between requests this is
exactly what the rows say.

The batch call is one atomic step in the saga. `RowLocks.Serializable` is what justifies it: under row locks every
interleaving of batch calls equals running them one at a time in commit order.

Assumptions: PostgreSQL READ COMMITTED with a row re-read when its lock is granted; the catalogue gains and loses no
rows; the order service is the only caller of the inventory; initially `0 <= reserved <= stock`; a new order uuid is
fresh; `MarkMessage` keeps a high-water mark of offset + 1; `uuid.Parse` undoes `String`.

## Where the code does not do what is promised

- `platform/pkg/kafka/consumer/group_handler.go:48-50` and `platform/pkg/kafka/kafka.go:15` say that a message whose
  handler failed is received again. It is, in every run, exactly when no later message has been handled successfully
  by the next rebalance (`ClaimLoop.RedeliveryExact`); one success after the failure, in the same session, loses it
  (`ClaimLoop.FailureThenSuccessLosesMessage`).
- `README.md:118-120` promises that a paid order is assembled and then moved to ASSEMBLED. A handler that returns an
  error is skipped, and one later success in the same partition moves the mark past its message for good. After any
  clean run an unlocked PAID order can still be completed if and only if one of its messages lies at or after the mark
  of its partition's consumer (`Completion.CompletableExactly`); otherwise it stays PAID whatever happens, and Pay and
  Cancel refuse it. `Completion.SkippedMessageStrandsOrder` is such a run, for every catalogue that can serve two
  orders. It takes a handler's error: without one on the order's own messages no paid order is stuck
  (`Completion.LostOnlyByFailure`, `Completion.PaidOrderCanComplete`).
- `README.md:116-121` describes payment as one transaction and repeated messages as ignored. The handler refuses only
  ASSEMBLED orders and Pay publishes before it commits, so a Pay lost in between leads, without any further fault, to
  an ASSEMBLED order that nobody paid for. In every run an order's history is lawful if and only if each handler that
  assembled it found it PAID, a test the handler does not make (`SagaTheorems.StatusSafetyExact`); that is so whenever
  no Pay was lost after publishing (`SagaTheorems.StatusSafety`), and for every catalogue and every acceptable order
  one such loss breaks it (`Completion.OneLostPayBreaksStatusSafety`).
- The inventory can refuse to release or commit the parts of an order that is entitled to them, once faults have given
  its reservations away. It accepts, in every run, if and only if every part still has a reservation
  (`SagaTheorems.AcceptedExactly`). A handler lost after committing the parts can be repeated only by taking a second
  reservation that is not its own (`SagaFaults.LostHandlerStrandsOrder`, `Completion.HandlerCanStrand`).
- An empty uuid list does not select nothing: it selects, locks and changes the whole catalogue, in name order
  (`inventory/internal/repository/part/query_parts.go:68-89`). The lock order that prevents deadlocks then no longer
  holds: names may repeat, and each query settles ties for itself. Such calls are safe exactly when a higher uuid
  always has a strictly higher name (`RowLocks.DeadlockFreeIffNamesRise`); two parts of the same name are enough for a
  deadlock (`RowLocks.SharedNameCanDeadlock`). The saga never makes such a call (`SagaTheorems.SagaNamesItsParts`).
- A shield or weapon given explicitly as the Nil uuid passes the validation as an empty slot. If the catalogue lists a
  part under that uuid with another type, the order cannot be read back (`Orders.CreateGetRoundTrip`, with such a
  catalogue in `Orders.NilSlotIsMisread`).
- A hull or engine row whose properties are of another kind makes the validation dereference nil
  (`Slots.PanicExact`, with such a catalogue in `Slots.MismatchedHullPanics`).

## Model

| member | source | states |
|---|---|---|
| Parts.Part.Reserve | inventory/internal/model/entity/part.go:62-74 | in place: one more reserved exactly when fewer are reserved than in stock, otherwise OutOfStock and nothing changes |
| Parts.Part.Release | inventory/internal/model/entity/part.go:76-84 | in place: one less reserved exactly when one is reserved, otherwise NothingToRelease and nothing changes |
| Parts.Part.Commit | inventory/internal/model/entity/part.go:86-99 | in place: one less reserved and in stock exactly when there is one of each, otherwise NothingToCommit and nothing changes |
| Parts.Part.constructor | inventory/internal/model/entity/part.go:102-116 | the entity takes the stored figures over without validation |
| Parts.ReadableExact | inventory/internal/repository/converter/part.go:12-54 | a row is readable exactly with a known type and, where it has properties, a strength between 30 and 200, a class A to C, an energy or plasma shield, a laser or missile weapon; which error otherwise |
| BatchSpec.OutcomeExact | inventory/internal/service/application/part/commit.go:19-33 | a batch reports no error exactly when its uuids are non-empty, distinct, present, readable and all allow the operation |
| BatchSpec.AcceptanceLaws | inventory/internal/model/entity/part.go:62-99 | a batch is accepted exactly for a non-empty, distinct, present and readable list each of whose parts has one to spare, one reserved, or one reserved and in stock |
| BatchSpec.OutcomeErrors | inventory/internal/service/application/part/reserve.go:20-37 | every error a batch reports, each with exactly when: missing or repeated before the first unreadable row before a refusal |
| BatchSpec.ListErrors | inventory/internal/repository/part/query_parts.go:108-133 | every error of a listing, each with exactly when |
| BatchSpec.PermutedBatch | inventory/internal/repository/part/query_parts.go:73-80 | the order of the uuids changes neither success nor the resulting table |
| BatchSpec.OutcomeLocal | inventory/internal/repository/part/query_parts.go:68-80 | a batch depends only on the rows it names, so locking these is enough |
| BatchSpec.NoOverselling | inventory/internal/model/entity/part.go:62-99 | after any sequence of accepted and refused batches every row is sound, and stock, reserved and their difference account exactly for the successful operations |
| InventoryService.LengthTestExact | inventory/internal/repository/part/query_parts.go:108-116 | the length test accepts exactly the duplicate-free, fully present lists (pigeonhole) |
| InventoryService.MapAgreesWithLookup | inventory/internal/repository/part/query_parts.go:92-133 | length test plus lookup loop give the same answer as looking every uuid up in the table |
| InventoryService.Repository.Select | inventory/internal/repository/part/query_parts.go:45-90 | a row is returned exactly when it is listed, or without a list when the filter names no type or its own; each once, ascending by uuid for a list and by name otherwise |
| InventoryService.Repository.MapAndOrder | inventory/internal/repository/part/query_parts.go:108-133 | the map-and-loop: result i is a fresh entity with requested uuid i and its stored row; errors in code order |
| InventoryService.Repository.MapAll | inventory/internal/repository/part/query_parts.go:96-106 | without a list every record becomes an entity, or the first unreadable one decides the error |
| InventoryService.Repository.List | inventory/internal/repository/part/query_parts.go:19-43 | for a list the parts in request order, or PartNotFound for a repeated or missing uuid, or the first conversion error; without a list exactly the rows of the filter's type, or all, in name order |
| InventoryService.Repository.UpdateReservedBatch | inventory/internal/repository/part/update_reserved.go:10-41 | every row the batch names carries the figures of one of its entries, no other row or column changes, an error exactly when no row matched |
| InventoryService.Repository.PerformAll | inventory/internal/service/application/part/reserve.go:27-32 | every entity changed in place, or the first refusal in request order |
| InventoryService.Repository.ChangeParts | inventory/internal/service/application/part/reserve.go:14-40 | Reserve, Release and Commit: all or nothing; the new table is the pointwise update exactly on acceptance, else the old one; the reported error is the first in code order; an empty list means the whole catalogue in name order |
| RowLocks.WriteIsBatch | inventory/internal/service/application/part/commit.go:19-33 | writing what was computed from rows read at lock time is the atomic batch on the current table |
| RowLocks.InvStep | inventory/internal/repository/part/query_parts.go:64-90 | every step of every transaction keeps locks exclusive, reads current, and the table equal to the replay of the log |
| RowLocks.Serializable | inventory/internal/service/application/part/release.go:19-33 | in any interleaving, with every whole-catalogue query locking in a name order of its own, table and answers are those of running the answered calls one at a time in commit order; the log lists each answered call once; aborted ones leave no trace |
| RowLocks.ConcurrentNoOverselling | inventory/internal/service/application/part/reserve.go:20-37 | no interleaving oversells, and each part accounts for the accepted calls |
| RowLocks.NoWaitCycle | inventory/internal/repository/part/query_parts.go:73-80 | with order rows below part rows and part rows ascending, the wait-for graph has no cycle: the wanted lock rises along every path |
| RowLocks.NeverStuck | inventory/internal/repository/part/query_parts.go:73-80 | some unfinished transaction can always go on |
| RowLocks.RunsAreFinite | order/internal/repository/order/query_order.go:30-43 | remaining locks and steps strictly decrease, so no run is longer than the initial measure |
| RowLocks.NamedPartsNeverDeadlock | inventory/internal/repository/part/query_parts.go:68-81 | in every reachable state of transactions that name their parts the wait-for graph has no cycle, nothing is stuck in any catalogue, and a run that cannot go on has finished everything |
| RowLocks.DeadlockFreeIffNamesRise | inventory/internal/repository/part/query_parts.go:83-89 | with whole-catalogue calls allowed and ties broken per query, every workload and interleaving is free of deadlocks if and only if a higher uuid always has a higher name |
| RowLocks.SharedNameCanDeadlock | inventory/internal/repository/part/query_parts.go:89 | two parts of the same name are enough for a deadlock |
| Slots.CollectUuids | inventory/internal/service/application/part/validate_compatibility.go:40-49 | the filled slots in order, or InvalidUuid exactly when a required slot is empty |
| Slots.ValidateDuplicateUuids | inventory/internal/service/application/part/validate_compatibility.go:108-130 | InvalidUuid exactly when two filled slots name the same part |
| Slots.Resolve | inventory/internal/service/application/part/validate_compatibility.go:61-105 | each slot gets its own row, or PartTypeMismatch exactly when some filled slot has a part of another type |
| Slots.Check | inventory/internal/service/domain/compatibility_checker.go:19-39 | hull strength covers the engine and shield/weapon is not plasma/laser; a nil hull or engine property panics |
| Slots.ValidateCompatibility | inventory/internal/service/application/part/validate_compatibility.go:23-106 | the first violated condition in code order decides the answer |
| Slots.ValidationExact | inventory/internal/service/application/part/validate_compatibility.go:32-106 | on a well-formed catalogue validation succeeds exactly for the buildable ships and never panics |
| Slots.ValidationErrors | inventory/internal/service/application/part/validate_compatibility.go:23-106 | every answer of the validation, each with exactly when: empty or repeated slots, then missing parts, then the first unreadable one, then a part of another type, then strength and plasma/laser |
| Slots.PanicExact | inventory/internal/service/domain/compatibility_checker.go:20-22 | on any catalogue it panics exactly when all earlier checks pass and hull or engine has properties of another kind |
| Slots.MismatchedHullPanics | inventory/internal/repository/converter/part.go:41-54 | such a catalogue: a hull row with the properties of a shield, which the converter lets pass |
| Orders.TotalPrice | order/internal/model/order.go:34-42 | int64 accumulation equals the exact sum reduced once |
| Orders.ItemsUuids | order/internal/model/order.go:44-52 | the uuids of the items, index by index |
| Orders.GetOrderItemByType | order/internal/api/order/v1/get.go:47-64 | each slot is the last item of its type, or empty without one |
| Orders.ReorderedRows | order/internal/repository/order/query_order.go:45-61 | a reordering of item rows keeps the sum and the multiset of uuids |
| Orders.CreateGetRoundTrip | order/internal/service/order/create.go:22-77 | for every request that passed the checks, reading items back in any row order gives the requested parts exactly when no optional slot is an explicit Nil uuid listed under another type; always when no part is Nil |
| Orders.NilSlotIsMisread | inventory/internal/service/application/part/validate_compatibility.go:40-49 | a catalogue and a request that pass every check and do not read back |
| Orders.TotalRoundTrip | order/internal/api/order/v1/get.go:32-44 | the total does not depend on row order and is exact exactly when it fits int64; four prices of at most a quarter of the maximum always do |
| Orders.ToRecords | order/internal/repository/converter/order.go:49-56 | one row per item under the order's uuid, from which `RowsRoundTrip` recovers the items |
| Orders.ToItems | order/internal/repository/converter/order.go:58-65 | the items a list of fetched rows stands for |
| Orders.RowsRoundTrip | order/internal/repository/order/create.go:46-63 | items stored as rows and fetched in any row order are the same items, none lost or repeated |
| SagaInvariants.MoveKeeps | order/internal/service/order/pay.go:21-62 | a request's step keeps its order's row, lock and ledger share consistent |
| SagaInvariants.MessagesStep | order/internal/service/order/pay.go:50-61 | a message about an order always implies PAID, ASSEMBLED, a Pay that published and holds the lock, or a Pay lost after publishing |
| SagaInvariants.BalancedStep | order/internal/service/order/create.go:65-82 | stock figures, claims of orders and fault counters of every part move together at every step |
| SagaInvariants.InvRun | order/internal/consumer/assembly_consumer/handler.go:36-55 | the whole invariant holds in every state of every run |
| SagaTheorems.Conservation | order/internal/service/order/cancel.go:19-31 | in every run, faulty or not, late effects included: reserved = initial + claiming orders + leaked - lost, stock = initial - ships built - burned, and no part is oversold |
| SagaTheorems.CleanConservation | order/internal/consumer/assembly_consumer/handler.go:42-54 | in every clean run reserved and stock differ from the initial ones by exactly the orders that claim the part and the ships it was built into |
| SagaTheorems.BoundedDuplication | order/internal/consumer/assembly_consumer/handler.go:36-55 | charges exceed the shown one by exactly the Pays lost after charging or charged late, part commits the assembling one by exactly the handlers lost after committing or committed late, releases by at most the lost and late Cancels |
| SagaTheorems.AcceptedExactly | inventory/internal/model/entity/part.go:76-99 | in every run, for every Cancel and every handler about to call and any row order: the inventory accepts if and only if every part has a reservation left, that is, if and only if less was given away than initial reservations, claims and leaks together |
| SagaTheorems.NeverRefused | inventory/internal/model/entity/part.go:76-99 | so an order that still claims its parts is accepted unless a fault has given away one of them |
| SagaTheorems.CleanNeverRefused | order/internal/service/order/cancel.go:23 | in a clean run they are never refused |
| SagaTheorems.SagaNamesItsParts | order/internal/service/order/create.go:22-30 | every order of every run has at least two distinct parts of the catalogue, so no call of the saga has an empty list |
| SagaTheorems.EveryOrderReadsBack | order/internal/api/order/v1/get.go:15-45 | every order of every run has exactly the items of the request that created it, at catalogue prices, and reads back as that request in any row order if and only if no optional slot was a Nil uuid of another type |
| SagaTheorems.EveryOrderIsShipworthy | inventory/internal/service/domain/compatibility_checker.go:19-39 | every order of every run obeys type, strength and plasma/laser rules if and only if no explicit Nil uuid escaped them; always when the catalogue has no Nil part |
| SagaTheorems.StatusSafetyExact | order/internal/consumer/assembly_consumer/handler.go:42-54 | in every run, faulty or not, an order goes PENDING_PAYMENT, CANCELLED or PENDING_PAYMENT, PAID, ASSEMBLED, or part of that way, if and only if every handler that assembled it found it PAID |
| SagaTheorems.StatusSafety | order/internal/consumer/assembly_consumer/handler.go:37-54 | so the history of every order without a Pay lost after publishing is lawful |
| SagaTheorems.PaymentFieldsExact | order/internal/repository/order/update.go:12-31 | in every run, faulty or not, transaction and method are set together, belong to a charge of the order, and are set exactly for PAID and ASSEMBLED rows if and only if every handler that assembled it found it PAID |
| SagaTheorems.PaymentFieldsTrackStatus | order/internal/repository/order/update.go:12-31 | in clean runs transaction and method are set exactly for PAID and ASSEMBLED orders and are those of the one charge |
| SagaTheorems.RefinesStep | order/internal/service/order/cancel.go:13-34 | a clean step is one atomic operation, or invisible |
| SagaTheorems.Refinement | order/internal/service/order/pay.go:21-62 | every clean run is, step by step, a run of the machine with atomic create, pay, cancel and complete; deliveries and redeliveries are stutters |
| SagaFaults.LostHandlerStrandsOrder | order/internal/consumer/assembly_consumer/handler.go:47-54 | in any run, after a handler lost after its commit the order is as before and its message still in the log, and should it be handed over again the call is accepted, in any row order, exactly when every part had a second reservation |
| Pipeline.IsSagaRun | order/internal/consumer/assembly_consumer/handler.go:36-55 | every run of saga and consumers together is a run of the saga, a clean one a clean one |
| Pipeline.SystemStep | platform/pkg/kafka/consumer/group_handler.go:51-81 | every step keeps the saga invariant, the consumers within their partitions, each handler at its consumer's message with its order locked, and that a successful handling has answered the message or left the order ASSEMBLED |
| Pipeline.StrandedForever | order/internal/service/order/pay.go:31-34 | an unlocked PAID order with no message at or after the marks and none outstanding stays as it is in every continuation, faults included |
| Completion.CompletableExactly | platform/pkg/kafka/consumer/group_handler.go:46-81 | after any clean run an unlocked PAID order can still be completed, with or without further faults, if and only if one of its messages lies at or after the mark of its partition's consumer; otherwise every continuation leaves it as it is |
| Completion.LostOnlyByFailure | platform/pkg/kafka/consumer/group_handler.go:70-78 | in every run, faulty or not, an unlocked PAID order that is past both marks has lost a message to a handler that returned an error |
| Completion.PaidOrderCanComplete | assembly/internal/service/assembly/assemble.go:31-44 | after any clean run a PAID unlocked order on whose messages no handler has failed can be completed without any fault |
| Completion.SkippedMessageStrandsOrder | assembly/internal/consumer/order_paid/handler.go:42-47 | for every catalogue that can serve two orders of one partition, a clean run leaves the first PAID for good |
| Completion.WaitingOrderIsAssembled | order/internal/consumer/assembly_consumer/handler.go:42-54 | in any run, a message that can still be handed over about an unlocked order with committable parts gets it assembled by fault-free steps, whatever its status, and its history is then lawful exactly when it was PAID |
| Completion.OneLostPayBreaksStatusSafety | order/internal/service/order/pay.go:56-62 | for every catalogue and acceptable order, one Pay lost after publishing, with no fault before or after it, leads to an unpaid ASSEMBLED order with an unlawful history |
| Completion.HandlerCanStrand | order/internal/consumer/assembly_consumer/handler.go:42-54 | for every catalogue and acceptable order with a part nobody else has reserved, a clean run leads to a handler whose loss after the commit makes every repetition refused |
| OrderService.ValidateUniqueUuids | order/internal/service/order/create.go:89-109 | accepts exactly the lists in which only Nil occurs twice |
| OrderService.CourseIsRun | order/internal/service/order/pay.go:24-62 | the steps requests take, as their contracts list them, are a run of the saga machine that ends where the service stands |
| OrderService.Service.ServiceRuns | order/internal/service/order/create.go:16-87 | any sequence of service calls since the start is one run of the saga machine from the empty factory, and the invariant of all runs holds of the service |
| OrderService.CreateFailureExact | order/internal/service/order/create.go:17-63 | nothing stops a request before the reservation exactly when it is authorised, orderable and in stock |
| OrderService.CreateErrors | order/internal/service/order/create.go:17-63 | every failure of Create before the reservation, each with exactly when |
| OrderService.Service.Create | order/internal/service/order/create.go:16-87 | every answer in code order; success exactly when authorised, orderable, in stock, accepted and stored; a PENDING_PAYMENT order with the requested parts at catalogue type and price; the table is the batch whenever the checks pass, so on a failed insert the reservation stays; the steps taken, as a run of the machine |
| OrderService.Service.Examine | order/internal/service/order/create.go:39-63 | the first failure of list, stock and validation in code order, or the items in request order |
| OrderService.Service.Store | order/internal/repository/order/create.go:13-70 | row and item rows together or not at all |
| OrderService.Service.Pay | order/internal/service/order/pay.go:13-71 | each answer with exactly when, from method, row status, charge and loss: succeeds exactly for a stored PENDING_PAYMENT order that is charged and committed; the row is PAID with this charge exactly then; the message is in the log on success and when the transaction is lost at its commit, and in no other case; the steps taken, as a run of the machine |
| OrderService.Service.CommitRow | order/internal/repository/order/update.go:12-41 | status and payment columns are overwritten, items and the other rows kept, the lock dropped |
| OrderService.Service.CallInventory | order/internal/consumer/assembly_consumer/handler.go:47 | the call for the items in whatever order their rows come back is accepted, and changes the table, as the one for the items as stored; the error follows the row order |
| OrderService.Service.Cancel | order/internal/service/order/cancel.go:12-35 | each answer with exactly when, from the row and the inventory: succeeds exactly for a stored PENDING_PAYMENT order whose release is accepted and committed; the table is the release whenever it is accepted, also when the commit is then lost; the steps taken, as a run of the machine |
| OrderService.Service.ShipAssembledHandler | order/internal/consumer/assembly_consumer/handler.go:13-56 | not found exactly without a stored row; succeeds without a change exactly for an ASSEMBLED row; for every other row succeeds exactly when the parts are accepted and the transaction is not lost, and is then ASSEMBLED with its parts committed, which stand also when the transaction is lost; the steps taken, as a run of the machine |
| OrderService.Service.OrderPaidHandler | assembly/internal/consumer/order_paid/handler.go:13-48 | one ShipAssembled message about the same order, without deduplication; an error exactly when it is not acknowledged, also when it has reached the log |
| OrderService.Service.Get | order/internal/api/order/v1/get.go:15-45 | the parts as the fetched rows give them, which is the request whenever every row order reads back as it, and the total of the stored items |
| ClaimLoop.AtLeastOnce | platform/pkg/kafka/consumer/group_handler.go:46-81 | over any number of sessions every message below the mark was handed over, and the mark is one past the highest success |
| ClaimLoop.RedeliveryExact | platform/pkg/kafka/consumer/group_handler.go:70-80 | for every run and every continuation after a rebalance that works past a message: the message is handed over again if and only if, at the rebalance, no message at or after it had succeeded |
| ClaimLoop.RedeliveryPossible | platform/pkg/kafka/consumer/group_handler.go:48-50 | at any moment a message can still come back in a later session exactly when nothing has overtaken it |
| ClaimLoop.FailureThenSuccessLosesMessage | platform/pkg/kafka/consumer/group_handler.go:48-50 | a failure followed by one success in the same session is never redelivered |
| ClaimLoop.Consumer.Handle | platform/pkg/kafka/consumer/group_handler.go:70-80 | one message: marked after success, skipped after an error, session ended on cancellation |
| ClaimLoop.Consumer.ConsumeClaim | platform/pkg/kafka/consumer/group_handler.go:51-87 | hands over exactly the messages before the first other signal or cancellation, in order, at consecutive offsets, each with its own reply; ends cancelled exactly when one reply was |
| ClaimLoop.ClaimHandsOver | platform/pkg/kafka/consumer/group_handler.go:51-70 | the trace of a claim is the earlier one plus one delivery per message taken |
| ClaimLoop.Consumer.Consume | platform/pkg/kafka/consumer/consumer.go:60-81 | the claims of the sessions up to the first that does not end with a rebalance, each from the mark; the end is that session's end |
| ClaimLoop.SessionsAreRun | platform/pkg/kafka/consumer/consumer.go:60-81 | any number of sessions is one run of the machine, session by session |
| ClaimLoop.AttendedExact | platform/pkg/kafka/consumer/consumer.go:63-75 | the sessions attended are those from the front up to the first that does not end with a rebalance |
| Session.ConvertHeaders | platform/pkg/kafka/producer/producer.go:59-73 | every header in order, index by index |
| Session.ExtractHeaders | platform/pkg/kafka/consumer/group_handler.go:89-101 | exactly the headers with a key, in order |
| Session.ConsumerSession | platform/pkg/middleware/kafka/session.go:53-67 | the first non-empty session header decides the context, even when it cannot be parsed |
| Session.NoValidHeader | platform/pkg/middleware/kafka/session.go:49-52 | when every session header is missing, empty or cannot be parsed, the context is left untouched |
| Session.FirstHeaderDecides | platform/pkg/middleware/kafka/session.go:56-63 | the first non-empty session header decides alone, valid or not |
| Session.OneHop | platform/pkg/middleware/kafka/session.go:30-38 | a session crosses one hop among foreign headers, and nothing else of the context changes |
| Session.EmptyHop | platform/pkg/middleware/kafka/session.go:47-52 | without a session, and with no valid session header of others, the context is untouched |
| Session.SessionSurvives | platform/pkg/middleware/kafka/session.go:30-67 | a non-Nil session survives any number of hops, whatever foreign headers come before it and whatever comes after it |
| Closer.Closer.Add | platform/pkg/closer/closer.go:46-51 | one more function at the end of the list |
| Closer.Closer.CloseAll | platform/pkg/closer/closer.go:55-95 | the first call runs every function in reverse order despite errors, empties the list and returns the first error; later calls do nothing |
| Closer.ShutdownOrder | platform/pkg/closer/closer.go:53-95 | for any sequence of calls exactly the functions added before the first CloseAll have run, once each: the k-th to run is the k-th from the end of the registration |
| Closer.CloseAllAnswers | platform/pkg/closer/closer.go:83-94 | the first CloseAll returns the first failure in execution order, every later one nothing |

## Left out

- Generated code, mocks, configuration, wiring, logging, metrics, tracing and health checks: no logic of the saga.
- IAM, rate limiting and the payment service: their answers are parameters (`authorized`, `charge`).
- Protobuf and JSON encoding, SQL text and uuid text: a malformed properties column is a value of its own, uuid text is a codec with the round trip assumed; undecodable messages, which both handlers drop, are not in the logs.
- Mapping of inventory errors to gRPC codes and back: the order service keeps the inventory error as its cause.
- Timestamps, sleep times, names and descriptions other than the collation rank of the part name.
- Timeouts and connection limits as timing: only their effect, a transaction lost before or after its remote effect, or a remote effect after the transaction is lost.
- The middleware chain of `NewGroupHandler`: a fold over functions settled by reading it.
- OrderService.Service.Pay: starts when the row lock is granted; waiting for it is the business of `RowLocks`.
- OrderService.Service.Cancel: starts when the row lock is granted.
- OrderService.Service.ShipAssembledHandler: as Cancel; a message that cannot be decoded is not in the log.
- A handler that outlives its session, after a rebalance that did not wait for it: a session ends when its handler has returned.
- Marks that the client library has not yet committed when a process dies: the mark of a consumer is the committed one.
- RowLocks.NeverStuck: waiting queues and lock timeouts of PostgreSQL are not modelled; a step is possible whenever the row is free.
- The unreachable lookup failure of validate_compatibility.go:73-81 and the unreachable length check of create.go:44-46: the list call has already succeeded with every uuid.
