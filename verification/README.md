# A verified model of the marketplace's order saga, outboxes and gateway guards

This project models the parts of a Go and Rust marketplace that must stay correct while
processes crash, messages get lost and requests overlap, and proves what they keep. It is
written for Dafny 4.11; `dafny verify dfyconfig.toml` checks all of it.

How it is built:

- A protocol is a machine: a total function `Step` over a state and a label, and `Run`, its fold
  over any sequence of labels. A crash, a lost request, a lost reply, a failed save and other
  clients' traffic are labels like any other, so "in every run" means for every sequence of labels.
  A label that does not apply leaves the state alone.
- Code that updates state in place is a class whose methods are proved against the machine or
  against the transaction functions the machine is made of. `Orchestrator` carries a ghost log of
  labels and proves that it is always in the state its log leads to; `PollIsARun` says the same of
  both relays' polls.
- Where a property is false of the code, a lemma exhibits the failing run and another gives the
  exact condition under which the property holds.

| file | what it models |
|---|---|
| `Inventory.dfy`, `InventoryService.dfy` | stock, reservations and the ledger; Reserve and Release |
| `Payments.dfy`, `PaymentService.dfy` | payments and refunds as transactions |
| `InventoryInterleaving.dfy`, `RefundInterleaving.dfy` | concurrent reserves and releases, refunds and charges, statement by statement, READ COMMITTED |
| `Saga.dfy` | the saga machine: saga row, order row, both services, the driving process |
| `SagaResume.dfy` | crash and resume |
| `SagaInvariant.dfy`, `SagaClaims.dfy` | what every transition keeps, and what follows |
| `SagaOutcome.dfy` | how orders end, alone and amid other orders' traffic |
| `SagaFailures.dfy` | where the saga falls short: each failure from a fresh order, and its exact condition |
| `Retries.dfy`, `Orchestrator.dfy` | what retrying over a lossy network amounts to; ProcessOrder, compensation and CancelOrder as they run |
| `Outbox.dfy` | the outbox tables, the statements on them, and what committing a poll does |
| `OrderOutbox.dfy`, `OrderService.dfy` | the order outbox with any number of relays; CreateOrder and the poll |
| `Catalog.dfy`, `CatalogIndex.dfy`, `CatalogRetries.dfy`, `CatalogService.dfy` | products, their events, the search index, the retries |
| `CircuitBreaker.dfy`, `RateLimit.dfy`, `Batcher.dfy` | the breaker, the limiters, the analytics batcher |

## Model

| member | source | states |
|---|---|---|
| Inventory.Conservation | services/inventory-service/internal/usecase/usecase.go:127-228 | over every sequence of calls: available stays non-negative, reserved covers the live reservations, their sum never changes, reserved moves exactly with the reservations table and available exactly with the ledger |
| Inventory.ColumnsFit | services/inventory-service/internal/repository/postgres/inventory_postgres.go:101-125 | if a product's total fits a 32-bit column at the start, both columns fit for ever |
| Inventory.ReleasedIsFinal | services/inventory-service/internal/usecase/usecase.go:127-165 | after a release, and anything after that, the pair can never be reserved again |
| Inventory.RepeatIsNoOp | services/inventory-service/internal/usecase/usecase.go:127-228 | a call that succeeded changes nothing when repeated at any later time, and succeeds again unless it is a Reserve whose pair was released since |
| Inventory.DuplicateCollapse | services/inventory-service/internal/usecase/usecase.go:127-228 | any sequence of calls with any repeats leaves the tables its effective calls alone would leave; these are at most one Reserve and then one Release per pair |
| Inventory.ReleaseSucceeds | services/inventory-service/internal/usecase/usecase.go:192-228 | releasing the recorded quantity of an existing reservation is granted in every well-formed state and leaves one Reserve and one Release in the pair's ledger |
| Inventory.NetIsWhatIsHeld | services/inventory-service/internal/repository/postgres/inventory_postgres.go:127-135 | a pair's ledger sums to minus what its reservation still holds |
| Inventory.ReserveAnswers | services/inventory-service/internal/usecase/usecase.go:127-165 | the answer to every Reserve: a new pair is granted exactly when at least the quantity is available, the last units included, and then that much moves from available to reserved; every refusal by its name and with the tables unchanged |
| Inventory.ReleaseAnswers | services/inventory-service/internal/usecase/usecase.go:192-228 | the answer to every Release, likewise |
| Inventory.SoldOutNotOversold | services/inventory-service/internal/repository/postgres/inventory_postgres.go:101-112 | reservations of one product by any number of orders are all granted if and only if together they ask for no more than is available |
| InventoryService.Usecase.Reserve | services/inventory-service/internal/usecase/usecase.go:102-125 | the statements with their rollbacks and a failing commit leave the tables and reply of the atomic transaction, whose grants and refusals ReserveAnswers gives; a refused commit leaves the tables as they were and answers with an error |
| InventoryService.Usecase.Release | services/inventory-service/internal/usecase/usecase.go:167-190 | the same for Release |
| InventoryService.Usecase.ReserveScript | services/inventory-service/internal/usecase/usecase.go:127-165 | the sequence of SQL statements computes the Reserve transaction, every error branch included |
| InventoryService.Usecase.ReleaseScript | services/inventory-service/internal/usecase/usecase.go:192-228 | the sequence of SQL statements computes the Release transaction, every error branch included |
| InventoryInterleaving.Serializable | services/inventory-service/internal/usecase/usecase.go:127-228 | every interleaving of the statements of concurrent reserves and releases leaves the tables of the atomic transactions in commit order |
| InventoryInterleaving.CommitIsAtomic | services/inventory-service/internal/repository/postgres/inventory_postgres.go:50-135 | at its commit a reserve or release has done what the atomic one does at that moment, and is granted |
| InventoryInterleaving.ConservedUnderInterleaving | services/inventory-service/internal/usecase/usecase.go:127-228 | so nothing is oversold and every unit is accounted for under every interleaving |
| InventoryInterleaving.UncontendedIsAtomic | services/inventory-service/internal/usecase/usecase.go:127-228 | with no other transaction open nothing waits: the statements of any call run through and leave what the atomic call leaves |
| Payments.DecidedOnce | services/payment-service/internal/usecase/usecase.go:41-177 | over every sequence of charges and refunds: one payment per order, with fixed id and amount, a verdict never revised, refunds never altered, and refunded means exactly one refund of at most the amount paid |
| Payments.ChargeIsIdempotent | services/payment-service/internal/usecase/usecase.go:41-96 | once an order is charged, every later charge, for any amount and any gateway verdict, returns the same payment and changes nothing |
| Payments.ChargeAnswers | services/payment-service/internal/usecase/usecase.go:41-96 | the answer to every charge: its status is the one in the row afterwards and is decided, by this draw if the row was new or pending; a first charge writes one payment of the amount; every refusal leaves the tables unchanged |
| Payments.RefundAnswers | services/payment-service/internal/usecase/usecase.go:98-177 | the answer to every refund: a spent key is answered with its refund; otherwise a successful payment is refunded by exactly the amount asked for, by all of it if that is 0, and not at all if it is more than was paid; every refusal by its name |
| Payments.RefundAcknowledged | services/payment-service/internal/usecase/usecase.go:98-177 | an acknowledged refund leaves its payment refunded if and only if its key had not been spent on another payment |
| Payments.SpentKeyHidesARefund | services/payment-service/internal/usecase/usecase.go:98-177 | the failing case: a payment reported as refunded that is not |
| Payments.RefundSign | services/payment-service/internal/usecase/usecase.go:98-177 | a refund row lies between zero and the amount paid if and only if the amount asked for was not negative |
| Payments.FailedIsNeverRefunded | services/payment-service/internal/usecase/usecase.go:98-177 | after any calls, and whatever refund is asked for next with any amount and key, a payment that failed is still failed and has no refund |
| Payments.RefundKeyNamesPayment | services/order-service/internal/saga/steps.go:157-163 | the text of a refund key determines its base and its payment |
| PaymentService.Usecase.ProcessPayment | services/payment-service/internal/usecase/usecase.go:41-96 | the statements with rollback and failing commit compute the charge transaction, whose answers ChargeAnswers gives |
| PaymentService.Usecase.RefundPayment | services/payment-service/internal/usecase/usecase.go:98-177 | the statements with rollback and failing commit compute the refund transaction, whose answers and amounts RefundAnswers gives |
| RefundInterleaving.Serializable | services/payment-service/internal/usecase/usecase.go:41-177 | every interleaving of the statements of concurrent refunds and charges leaves the tables of running the atomic transactions in commit order |
| RefundInterleaving.CommitIsAtomic | services/payment-service/internal/repository/postgres/payment_postgres.go:92-134 | at its commit a refund has done what the atomic transaction does at that moment |
| RefundInterleaving.ChargeIsAtomic | services/payment-service/internal/repository/postgres/payment_postgres.go:44-99 | at its commit a charge has done what the atomic transaction does at that moment, and returns its payment |
| RefundInterleaving.RefundedAtMostOnce | services/payment-service/internal/usecase/usecase.go:41-177 | under every interleaving, with any keys, an order has at most one payment, a payment at most one refund, and exactly one when it is refunded |
| RefundInterleaving.UncontendedRefund | services/payment-service/internal/usecase/usecase.go:98-177 | with no other transaction open nothing waits: the statements of any refund run through and leave what the atomic refund leaves |
| RefundInterleaving.UncontendedCharge | services/payment-service/internal/usecase/usecase.go:41-96 | the same for the statements of any charge |
| Saga.StepMakesProgress | services/order-service/internal/saga/orchestrator.go:142-157 | each successful step brings the end exactly one step execution closer, n + 4 for n items; no step is left exactly when none is named |
| SagaResume.ExecuteTwice | services/order-service/internal/saga/steps.go:75-194 | two attempts at one step have the effect and the reply of the first; a refused attempt has no effect |
| SagaResume.FinishIsInvariant | services/order-service/internal/saga/orchestrator.go:91-140 | through crashes, restarts, lost requests and lost replies, completing the run gives what completing it at once would have given |
| SagaResume.CrashResumeRefinement | services/order-service/internal/saga/orchestrator.go:91-140 | an interrupted run that is done has stock, reservations, ledger, payment, order and saga of one uninterrupted run with the same payment verdict |
| SagaResume.FinishIsARun | services/order-service/internal/saga/orchestrator.go:91-200 | the reference for uninterrupted runs is itself a run of the machine |
| SagaResume.ConfirmedIffInStock | services/order-service/internal/saga/orchestrator.go:91-200 | a fresh order of different products, undisturbed, ends confirmed and paid if and only if every item is in stock to the quantity ordered and the total is not negative, and otherwise cancelled |
| SagaResume.VerdictIsIgnored | services/order-service/internal/infrastructure/grpcclient/payment.go:19-31 | the saga does not look at the payment's verdict: whether the payment succeeds or fails, saga, order, stock and reservations end the same |
| SagaResume.OnwardFinishes | services/order-service/internal/saga/orchestrator.go:91-140 | from any point on its way the undisturbed process leaves what the reference run makes of the saga in hand |
| SagaResume.DirectCancelIsIgnored | services/order-service/internal/usecase/usecase.go:153-184 | at any point of a process on its way or before its restart, a direct cancellation changes nothing about how the order ends if and only if the saga in hand has steps left or the row was cancelled anyway |
| SagaResume.FinishHolds | services/order-service/internal/saga/steps.go:75-94 | of each item a confirmed restart holds what was held at the restart or is listed from the resume point on; a released row stays released |
| SagaResume.ResumeByIndex | services/order-service/internal/repository/postgres/order_postgres.go:63-113 | whatever was recorded or has landed and in whatever order the items are read, a restart that ends confirmed holds every item if and only if each item before the resume point is held at the restart or listed again behind it |
| SagaResume.ReorderedResumeSkipsAnItem | services/order-service/internal/saga/orchestrator.go:260-285 | the failing case, from a fresh order of two items: recovered over the other order of items, it is confirmed and paid with an item never reserved |
| SagaInvariant.StepKeepsInv | services/order-service/internal/saga/orchestrator.go:91-324 | the invariant of stored saga, process, reservations and payment is kept by every transition |
| SagaInvariant.RunKeepsInv | services/order-service/internal/saga/orchestrator.go:91-324 | and therefore holds in every run |
| SagaInvariant.SagaRefundWorks | services/order-service/internal/saga/steps.go:149-155 | a refund of the saga that is acknowledged refunds that payment, and one with a fresh id never leaves it charged |
| SagaClaims.PersistsBeforeItActs | services/order-service/internal/saga/steps.go:75-194 | in every run: reservations only for the stored items and at most the next one, a payment only if the saga was stored as paying before, a paid order only if it was stored as confirming before |
| SagaClaims.EveryReleaseWorks | services/order-service/internal/saga/steps.go:96-105 | in every reachable state, every release the compensation would send is granted, and sending it again changes nothing |
| SagaClaims.CancelConverges | services/order-service/internal/saga/orchestrator.go:292-324 | after any run with any failed attempts, a cancellation that succeeds has left exactly one refund of the recorded payment and every recorded item released exactly once, and nothing later undoes that |
| SagaClaims.RefundsAreFull | services/order-service/internal/saga/steps.go:149-155 | in every run a refund of the order's payment is for the whole amount |
| SagaClaims.CompensatingIsStuck | services/order-service/internal/saga/orchestrator.go:260-285 | a saga stored as compensating stays so through every restart and recovery; only CancelOrder moves it |
| SagaOutcome.WhatStatusMeans | services/order-service/internal/saga/orchestrator.go:91-200 | at any moment of a diligent run, with crashes and lost messages: confirmed means every item reserved and one payment of the total, succeeded or failed; cancelled means everything recorded is given back, so that a product's ledger is off balance if and only if the saga never learnt of its reservation and the customer stays charged if and only if it never learnt of the charge; failed means nothing reserved or charged and the order still pending or awaiting payment |
| SagaOutcome.HowItEnds | services/order-service/internal/saga/orchestrator.go:91-200 | after any diligent run, a process that starts and is not disturbed until it stops leaves the order confirmed, cancelled or failed, with those meanings, if and only if the stored saga was not compensating |
| SagaOutcome.AllOrNothing | services/order-service/internal/saga/orchestrator.go:167-214 | if in addition an error means no effect, the run ends confirmed with everything, or cancelled or failed with the ledger at zero for every product and no successful payment left |
| SagaOutcome.ResumeAmidTraffic | services/order-service/internal/saga/orchestrator.go:91-140 | crash and resume with other orders' calls falling anywhere: saga, order row, reservation rows, ledger entries and payment of this order are those of one uninterrupted run alone, if that run is granted its stock |
| SagaFailures.LostReplyLeaksStock | services/order-service/internal/saga/orchestrator.go:167-200 | the failing case, from any fresh order with its first item in stock: a lost reservation reply leaves stock held by a cancelled order |
| SagaFailures.LostReplyLeaksCharge | services/order-service/internal/saga/orchestrator.go:202-214 | the failing case, from any fresh order of one item in stock: a lost payment reply leaves the order cancelled, its stock given back and its customer charged |
| SagaFailures.UnsavedGiveUpConfirmsReleasedStock | services/order-service/internal/saga/orchestrator.go:167-200 | the failing case, from a fresh order: a lost save of the decision to compensate, then a crash, confirms an order whose stock was released |
| SagaFailures.RestartHoldsAllIff | services/order-service/internal/saga/orchestrator.go:91-140 | after any run at all, a restart that ends confirmed holds every item if and only if no recorded item was already released |
| SagaFailures.ConfirmedHoldsWhatWasWanted | services/order-service/internal/saga/steps.go:75-94 | a confirmed order holds the quantity it wanted of a product if and only if it lists the product once |
| SagaFailures.ListedTwiceIsHeldOnce | services/order-service/internal/saga/steps.go:75-94 | the failing case, from any fresh order that lists an item twice: confirmed and paid, holding the quantity once |
| SagaFailures.FailedPaymentCannotBeCancelled | services/order-service/internal/saga/orchestrator.go:292-324 | the failing case, from a fresh order whose payment fails: confirmed and paid, and whatever follows the payment cannot be refunded and no cancellation gets past its refund |
| SagaFailures.DirectlyCancelledIsPaid | services/order-service/internal/usecase/usecase.go:165-171 | the failing case, from a fresh order: the process dies, the customer cancels, recovery charges them and marks the order paid |
| SagaFailures.LateCancelKeepsStockAndCharge | services/order-service/internal/usecase/usecase.go:157-167 | the other failing case, from a fresh order: the cancellation lands between the update to paid and the save, and the order rests cancelled with its saga confirmed, its stock held and its customer charged |
| Retries.RetriesCountOnce | services/order-service/internal/saga/orchestrator.go:236-257 | any number of attempts at a step over any network have the effect of the first that arrived and was granted, or none, and whoever is answered later gets the answer to that one |
| Retries.SureRetries | services/order-service/internal/saga/orchestrator.go:236-257 | an order that the undisturbed run confirms is granted its next step within three attempts if of three interactions in a row one is answered |
| Retries.InStockIsSure | services/order-service/internal/saga/orchestrator.go:91-140 | a fresh order of different products in stock is such an order |
| Orchestrator.Orchestrator.ProcessOrder | services/order-service/internal/saga/orchestrator.go:91-140 | it is a run of the machine; at most n + 4 step executions and three attempts at each; it reports an error only if an interaction went unanswered; without one, either a step was given up and what was recorded was undone as far as three tries of everything allow, or the world is that of the reference run, over any network; no step is given up if the reference run confirms the order and of three interactions in a row one is answered; over a network that loses nothing it reports success and leaves the world of the reference run |
| Orchestrator.Orchestrator.ExecuteWithRetry | services/order-service/internal/saga/orchestrator.go:224-257 | it succeeds with the first attempt that is delivered and granted, and fails only after the third or when the context expires before another; the world is the one those attempts leave; it succeeds exactly when the step is granted if nothing is lost |
| Orchestrator.Orchestrator.CompensateInventory | services/order-service/internal/saga/steps.go:96-105 | every recorded item's release is sent, in order, whatever became of the ones before, and every one that is delivered takes effect; success exactly when all were |
| Orchestrator.Orchestrator.ReleasePressed | services/order-service/internal/saga/orchestrator.go:230-257 | up to three such rounds; it fails only after the third or when a context expires, and each item is given back, or was tried three times, or the context expired |
| Orchestrator.Orchestrator.RefundRounds | services/order-service/internal/saga/orchestrator.go:230-257 | up to three refunds; it fails only after the third or when a context expires; success means the payment is refunded; over a network that loses nothing it succeeds exactly when the payment can be refunded |
| Orchestrator.Orchestrator.HandleStepFailure | services/order-service/internal/saga/orchestrator.go:167-200 | it is a run of the machine that gives the step up and ends the process; it reports an error exactly for a failed start; over any network each recorded item is given back unless its release was sent three times or a context expired, for a failed confirmation the payment likewise, and then the order and the saga are closed; over a network that loses nothing a refused step releases what was reserved and a failed confirmation also refunds |
| Orchestrator.Orchestrator.CancelOrder | services/order-service/internal/saga/orchestrator.go:292-324 | it is a run of the machine; it fails only without a saga, after a third refund or a third round of releases, when a context expires, or when the order update goes unanswered; when it reports success everything recorded is undone exactly once and the order row is cancelled; over a network that loses nothing it reports success if and only if there is a saga whose payment is absent, succeeded, or was refunded under this very key, and then leaves payment refunded, stock released, order and saga cancelled, otherwise nothing changed |
| Orchestrator.Orchestrator.FinishCancel | services/order-service/internal/saga/orchestrator.go:292-324 | the order update decides the error; only after it is answered is the saga closed, and a lost save is ignored |
| Orchestrator.Orchestrator.ItIsARun | services/order-service/internal/saga/orchestrator.go:91-324 | the class invariant: the logged labels are a run of the machine from a fresh order that leads to the world the code has produced |
| Outbox.BackoffDoublesToItsCap | services/order-service/internal/outbox/relay.go:147-154 | the backoff doubles from half a second, is thirty seconds from the sixth retry on, never decreases, and cannot overflow 64 bits |
| Outbox.FiveFailuresBury | services/catalog-service/internal/outbox/relay.go:117-157 | an event is processed when sent, dead at once when it cannot be sent, otherwise dead on its fifth failure and due again after its backoff before that; the dead letter counts the last failure |
| Outbox.SettleOneMore | services/order-service/internal/repository/postgres/outbox_postgres.go:110-152 | committing one more verdict is executing its statement after the others |
| Outbox.SettleConserves | services/order-service/internal/repository/postgres/outbox_postgres.go:119-152 | a committed poll loses, doubles and alters no event and marks as processed only what was sent; both relays' polls keep conservation by it |
| OrderOutbox.OutboxConservation | services/order-service/internal/outbox/relay.go:83-145 | in every run of any number of relays with rollbacks and failed commits, each event is pending, processed or dead, only one of these, and processed only after Kafka acknowledged it |
| OrderOutbox.SettledByTheFifthPoll | services/order-service/internal/outbox/relay.go:83-145 | a pending event's count is the number of committed polls that selected it and at most four, a dead one's is exactly five: the fifth commit settles it |
| OrderOutbox.NewEventIsDue | services/order-service/internal/repository/postgres/outbox_postgres.go:67-108 | in every run a new order's event can be selected at once by any idle relay |
| OrderOutbox.OrderAndEventTogether | services/order-service/internal/usecase/usecase.go:71-139 | in every run an order exists if and only if its event was created, and only one was |
| OrderService.SumLines | services/order-service/internal/usecase/usecase.go:71-75 | the loop computes the 64-bit wrap of the exact total |
| OrderService.TotalCountsEachLine | services/order-service/internal/usecase/usecase.go:71-75 | the total is price times quantity over the lines: a line adds its own amount wherever it stands |
| OrderService.TotalIsOrderless | services/order-service/internal/usecase/usecase.go:71-75 | lists of the same lines have the same total |
| OrderService.WrapFits | services/order-service/internal/usecase/usecase.go:71-75 | what is stored is a 64-bit number that differs from the total by a multiple of 2^64 |
| OrderService.TotalIsExact | services/order-service/internal/usecase/usecase.go:71-75 | the stored total is exact if and only if the exact total fits 64 bits |
| OrderService.Usecase.CheckPrices | services/order-service/internal/usecase/usecase.go:77-88 | it passes exactly when every line has the catalogue's price; otherwise the first offending line decides the error |
| OrderService.Usecase.CreateOrder | services/order-service/internal/usecase/usecase.go:71-128 | order and event are written together or not at all, and together exactly when every price is the catalogue's, quantities and prices fit their columns, the id is new and the commit succeeds; the items are the lines field by field |
| OrderService.Relay.Poll | services/order-service/internal/outbox/relay.go:83-145 | the batch is settled as a whole or the tables are as before; what was sent stays sent; a failed statement makes the commit fail |
| OrderService.PollIsARun | services/order-service/internal/outbox/relay.go:83-145 | what the poll promises is what the machine does on a selection, the sends and the commit or rollback |
| Catalog.CatalogConservation | services/catalog-service/internal/outbox/relay.go:97-157 | in every run of any number of relays, each event is in exactly one table with its content, processed only after the index took it in, and a pending one counts its committed polls; each product row is what its events say |
| Catalog.StepKeepsRows | services/catalog-service/internal/usecase/usecase.go:57-199 | every create, update and delete changes row and event log together |
| Catalog.ProjectIndexes | services/catalog-service/internal/outbox/handler.go:34-63 | handling a created or updated event leaves at its id the name, description, price, categories and creation time of the product; a deletion leaves none; every other id is untouched |
| CatalogIndex.IndexAgrees | services/catalog-service/internal/outbox/relay.go:97-157 | one relay and no failures on a product's events: through crashes, lost commits and replays the index shows the product as of some number of events, never behind the processed ones; once these are all processed it has the product exactly if the table has it, with the same five fields |
| CatalogIndex.HandleKeepsLatestIff | services/catalog-service/internal/outbox/handler.go:34-63 | while the index shows a product's latest landed event, letting an event of it land keeps that if and only if no later event of it has landed or the two say the same |
| CatalogIndex.InOrderLandingsAgree | services/catalog-service/internal/outbox/relay.go:97-157 | any number of relays, failures and retries: if every landing meets that condition, the index shows the latest landed event, and once all are processed it has the product exactly if the table has it, with the same five fields |
| CatalogIndex.SecondRelayRevivesDeleted | services/catalog-service/internal/outbox/relay.go:97-157 | the failing case: with two relays the index shows a deleted product after every event is processed |
| CatalogIndex.RetryRevivesDeleted | services/catalog-service/internal/outbox/relay.go:117-157 | the failing case: with one relay and one failed handling, the retry comes after the deletion |
| CatalogRetries.CommitKeepsWithinIff | services/catalog-service/internal/outbox/relay.go:131-157 | while a pending event has tries left, a relay's commit leaves it settled or with tries left if and only if the relay does not hold it refused with a try left by the count it read and none by the count in the table |
| CatalogRetries.SettledByTheFifthIff | services/catalog-service/internal/outbox/relay.go:97-157 | any number of relays: an event keeps within its retries at every moment of a run if and only if no commit overshoots so, and then a pending one has been selected by at most four committed polls |
| CatalogRetries.OneRelaySettlesByTheFifth | services/catalog-service/internal/outbox/relay.go:131-157 | with one relay a pending event has been selected by at most four committed polls, a dead one by as many as its row says and at most five, a processed one by one to five |
| CatalogRetries.TwoRelaysRetryMore | services/catalog-service/internal/outbox/relay.go:131-157 | the failing case: two relays leave an event pending after five |
| CatalogService.OneProductPerKey | services/catalog-service/internal/repository/postgres/product_postgres.go:35-56 | in every run a key has one holder, so the product a refused create names is the only one |
| CatalogService.CreateOncePerKey | services/catalog-service/internal/repository/postgres/product_postgres.go:35-56 | after a create, whatever happens short of deleting the product, creating under the same key changes nothing |
| CatalogService.Usecase.CreateProduct | services/catalog-service/internal/usecase/usecase.go:57-106 | product and event together or neither, and together exactly when no product has the key, the id is new, the price is not negative and the commit succeeds; a used key, the empty one included, names its holder |
| CatalogService.Usecase.UpdateProduct | services/catalog-service/internal/usecase/usecase.go:114-165 | given fields are set, others kept, an empty category list counts as not given; the event carries the new row; a missing product is an error |
| CatalogService.Usecase.DeleteProduct | services/catalog-service/internal/usecase/usecase.go:167-199 | row and event together or neither; a missing product is an error |
| CatalogService.Relay.Poll | services/catalog-service/internal/outbox/relay.go:97-157 | the batch is projected in order, then settled as a whole or not at all |
| CatalogService.PollIsARun | services/catalog-service/internal/outbox/relay.go:97-157 | what the poll promises is what the machine does on a read, the handlings and the commit |
| CircuitBreaker.BreakerRefinesRule | services/api-gateway/src/circuit_breaker.rs:43-88 | for any interleaving of admissions and results, a call is admitted if and only if fewer than threshold failures were recorded since the last success or the last failure is at least the timeout old |
| CircuitBreaker.RuleNeedsAThreshold | services/api-gateway/src/circuit_breaker.rs:30-40 | the rule describes a new breaker if and only if the threshold is positive |
| CircuitBreaker.HalfOpenAdmitsAll | services/api-gateway/src/circuit_breaker.rs:43-55 | once a call is admitted, every later one is until a result is recorded |
| CircuitBreaker.CircuitBreaker.TryEnter | services/api-gateway/src/circuit_breaker.rs:43-55 | the method decides as the rule over everything recorded so far |
| CircuitBreaker.CircuitBreaker.RecordFailure | services/api-gateway/src/circuit_breaker.rs:81-88 | the state remains that of the recorded history |
| CircuitBreaker.CircuitBreaker.RecordSuccess | services/api-gateway/src/circuit_breaker.rs:75-79 | the state remains that of the recorded history |
| RateLimit.RemembersIff | services/user-service/internal/ratelimit/ratelimit.go:43-62 | in whatever order calls are decided, what is remembered of a window is never more than was accepted in it, and all of it if and only if no call decided in between with a later reading has pruned any of it |
| RateLimit.RecentIsExact | services/api-gateway/src/ratelimit.rs:56-72 | a hit counts as recent if it is later than the cutoff, and at the gateway also if it is on it, as often as it was made |
| RateLimit.NoWindowOverflows | services/user-service/internal/ratelimit/ratelimit.go:43-62 | no window, wherever it is put, holds more than the limit of accepted calls |
| RateLimit.DecisionIsSound | services/user-service/internal/ratelimit/ratelimit.go:43-62 | whatever the clock read: the tables stay sound, a refusal is right by the whole history, and for every limit the decision is the one the whole history demands if and only if nothing of the window was forgotten |
| RateLimit.LateReadingOverflows | services/user-service/internal/ratelimit/ratelimit.go:44-47 | the failing case: four overlapping calls decided in another order than they read the clock are accepted, three of them in one window of two |
| RateLimit.Prune | services/user-service/internal/ratelimit/ratelimit.go:50-55 | the loop keeps exactly the hits in the window, in order |
| RateLimit.MemoryRateLimiter.constructor | services/user-service/internal/ratelimit/ratelimit.go:28-40 | non-positive settings become ten calls and one minute |
| RateLimit.MemoryRateLimiter.Allow | services/user-service/internal/ratelimit/ratelimit.go:43-62 | for any reading of the clock: a refusal is right by all calls ever accepted under the key, and unless a call of the window was forgotten it accepts if and only if fewer than the limit of them are in the window; other keys do not matter |
| RateLimit.GatewayLimiter.Check | services/api-gateway/src/ratelimit.rs:56-72 | the same with the closed window |
| Batcher.BatcherConserves | services/analytics-service/internal/usecase/batcher.go:41-79 | under any interleaving of adds, flushes and failing inserts, accepted events are inserted, in flight or buffered, as a multiset |
| Batcher.SingleFlushKeepsOrder | services/analytics-service/internal/usecase/batcher.go:55-79 | with one flush at a time, inserted, in flight and buffer together are the accepted sequence |
| Batcher.OrderKeptIffOrderly | services/analytics-service/internal/usecase/batcher.go:69-77 | for distinct events, finishing a flush keeps the order if and only if it is the oldest and succeeds or the newest and fails |
| Batcher.ReachableOrderKeptIff | services/analytics-service/internal/usecase/batcher.go:41-79 | the same in every run from the start |
| Batcher.TwoFlushesReorder | services/analytics-service/internal/usecase/batcher.go:55-79 | the failing case: two flushes in flight insert a later event first |
| Batcher.EventBatcher.Flush | services/analytics-service/internal/usecase/batcher.go:55-79 | all of the buffer reaches the store, or none of it and the buffer is as before, whatever other flushes are in flight; the order is kept if none is or the insert fails |
| Batcher.EventBatcher.Add | services/analytics-service/internal/usecase/batcher.go:41-51 | the event is accepted whatever the flush it triggers does; it flushes exactly at the size and reports an error exactly when that flush fails |

## Left out

- gRPC handlers and the validation of requests in front of the services, authentication and authorisation, UUID and JSON parsing, logging, tracing, caches and Redis publishing: they decide nothing modelled here. An event that cannot be parsed is the outcome `Poison`.
- Recover and the recovery worker: each recovered saga is the label `Begin`; the loop over many sagas, the advisory lock and the ticker are not modelled. One process at a time drives a saga.
- The saga row's current step and error message columns, and the timestamps.
- CancelOrder: the condition for success over a network that loses nothing takes the refund ids it draws to be new, as UUIDs are.
- Timeouts: a call that times out is a request or a reply that is lost; the sleeping between retries is not modelled.
- The order status transitions an administrator may request. Direct cancellation, which the order service offers for every pending or awaiting order, is the label `DirectCancel`; since every order starts out cancellable, the check that precedes its update may lie any time back.
- The Redis limiters and the limiters in pkg/middleware: separate round trips, or a library that cannot be seen.
- The analytics consumer and the Kafka producer beyond whether a send was acknowledged.
- Clock skew: an event is due when it is created, and one poll reads the clock once. The catalogue's events of one product are numbered in commit order, since each is created while its writer holds the product's row.
- PersistsBeforeItActs: a payment presupposes that the saga was stored as paying at some earlier moment, not that it still is, since a compensation may have been stored since.
- AllOrNothing: false without its conditions; WhatStatusMeans says exactly what is left behind without the one about replies, HowItEnds what a stored compensation does, RestartHoldsAllIff when an unrecorded one does harm, and the lemmas of SagaFailures show each way it fails.
- CrashResumeRefinement: about runs in which no step fails for good and nobody else is about, and then the whole world is the same; ResumeAmidTraffic is about this order amid others' traffic, and HowItEnds about steps that fail.
- FinishIsInvariant: excludes other orders' traffic like CrashResumeRefinement, which it serves.
- Refund keys: that nobody else spends a key of the saga's form on another payment is assumed of other traffic, in `Foreign`. A key of another form is a different constructor, so that its text could equal one of the saga's is not modelled.
- IndexAgrees: about one relay and a handler that does not fail on the product's events, replays included; SecondRelayRevivesDeleted and RetryRevivesDeleted show that neither can be dropped, HandleKeepsLatestIff gives the exact condition on one handling and InOrderLandingsAgree what it buys for any relays.
- BreakerRefinesRule: the failure counter has 32 bits, and the rule is proved while fewer than 2^32 failures have been recorded since the last success.
- BatcherConserves: a failed insert is taken to store nothing; what Stop adds is one more Flush. The methods of EventBatcher are single calls; their overlapping is the machine's.
- Check: the gateway reads the clock under its lock, so its readings do not run backwards; the same holds for TryEnter. Allow makes no such assumption.
