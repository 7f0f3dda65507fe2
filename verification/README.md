# Verified model of the billing backend

The backend keeps its state in PostgreSQL tables, changes it through short transactions and moves
work through an outbox and an at-least-once queue. This project models its protocols and proves what
they promise in every reachable state.

How the model is built:

- A table is a map or a sequence of rows; a committed transaction or a stream append is one step.
  Runs are arbitrary sequences of enabled steps, so crashes, redelivery, partial publishes, lost
  races and stale reads are ordinary interleavings.
- Batch loops and multi-statement transactions are classes whose methods update fields in place.
  Each is proved equal to its specification function or to a run of steps, so the run theorems apply.
- A lookup made before a transaction is a parameter (`seen`, `found`) that may be out of date.

| files | component |
|---|---|
| `Operations`, `OperationTheorems`, `SlowWorkers`, `OperationStore` | operation engine, outbox, dispatcher, queue |
| `Resources`, `Placement`, `Capacity`, `CapacityStore` | node capacity and reservations |
| `Provisioning`, `ProvisioningTheorems`, `ProvisioningRuns`, `ProvisioningOutcomes`, `ProvisioningTerms`, `ProvisioningWitnesses`, `ProvisioningStore` | paid order to active subscription, composing engine, capacity and subscriptions |
| `Calendar`, `Subscriptions`, `SubscriptionStore` | month arithmetic and the subscription lifecycle |
| `Commerce`, `CommerceTheorems`, `CommerceStore`, `Renewals` | orders, payment webhooks, renewals |
| `Ledger`, `Wallets` | the balance check and wallet adjustments |
| `Storefront` | shop and provisioning as one system, from money to machines |
| `AgentCommands`, `AgentGateway`, `AgentStore` | durable agent commands and connections |

Check everything with `dafny verify dfyconfig.toml`.

Assumptions and findings:

- Fail-stop workers. The retry decision uses the row read at claim time
  (backend/internal/operation/queue.go:114), so a replaced worker that is still running can act on old
  values. The retry bound then fails (`SlowWorkerBreaksBound`); `StepKeepsBoundIff` and `BoundHoldsIff`
  say exactly when, and `BoundedAttempts` and `MovesAreBounded` assume that recovery acts only on
  operations whose worker has stopped. No operation is stranded either way: `NoStrandedOperation` for
  fail-stop workers with any number of retries, `NoStrandedEvenIfSlow` for all workers because recovery
  waits two minutes and no backoff is longer (`TwoMinutesSuffice`); `ImpatientRecoveryStrands` shows that
  the wait is needed. `RedundantOnlyAfterLapse` and `NoStrandedProvisioning` are for fail-stop workers.
  The stream is durable and the clock never runs backwards. Everything else, terminal absorption and
  conservation included, holds for slow workers too.
- Heartbeats may lower node totals, but the CHECK constraint nodes_capacity_not_oversubscribed
  (backend/internal/migrations/sql/000005_infrastructure.up.sql:27-34) rejects an update that would
  drop a total below what is allocated and reserved, so no run oversubscribes a node.
- Operation keys. The portal passes a client's Idempotency-Key on unchanged
  (backend/internal/http/portal/handler.go:126). An operation that already holds a provision key makes
  EnsureForPaidOrder skip the item's operation for good: `ForeignKeyLosesOperation` is the run,
  `EnsureCreatesOperationIff` and `QuantityOperationsIff` the exact condition before the call.
- Subscription versions. A Finalize whose workflow read a non-active status and finds the row active
  writes an event without a version increment; `VersionsPairedInSystem` counts exactly these.
  `TwoWorkflowsBreakPairing` is a run with a replaced worker that is still running. With workers that
  stop, only a lapse followed by a renewal leaves this open (`RedundantOnlyAfterLapse`), and
  `LapseBreaksPairing` is such a run.
- Agent sends. A direct hand-over does not look at what a connection has already sent
  (backend/internal/runman/gateway.go:116-119), so a command can go out twice: `HandOverRepeats`;
  `RepeatsIff`, `CopiesAreHandOvers` and `AtMostOnceIff` say exactly when and how often.
- The balance check works modulo 2^64; `ModuloIsNotExact` and `ExactWhenTotalFits`.
- Order idempotency compares only the kind and the subscription of an existing order
  (backend/internal/commerce/repository.go:58,130), not its plan or quantity; the model does the same.

## Model

| member | source | states |
|---|---|---|
| `Prelude.CappedPowerGrows` | backend/internal/operation/queue.go:115 | The retry schedule 2^min(n, 8) doubles with each attempt below 8, never decreases and is 256 from 8 on |
| `OperationStore.Store.Create` | backend/internal/operation/repository.go:28-79 | A new row, queued, due at once and announced, is inserted exactly when the key is free; otherwise nothing changes and the row that holds the key decides between the existing operation and a conflict, also after a lost insert race |
| `OperationStore.Store.RecoverStuck` | backend/internal/operation/repository.go:201-264 | Exactly the selected stuck rows are requeued with one more retry, or failed when none is left, each with its event; a run of recovery steps, fail-stop if no selected row has a live worker |
| `OperationStore.Store.RequeueDue` | backend/internal/operation/queue.go:130-154 | Exactly the due retrying rows become queued, with one operation.queued.v1 event each in order |
| `OperationStore.Store.Claim` | backend/internal/operation/repository.go:100-121 | Claims exactly a queued and due row: it becomes running with a heartbeat now, and the worker holds the retry values it read |
| `OperationStore.Store.UpdateProgress` | backend/internal/operation/repository.go:123-130 | A report sets status and heartbeat of a non-terminal row and nothing else, and is refused on a terminal one |
| `OperationStore.Store.Conclude` | backend/internal/operation/queue.go:107-119 | Success ends succeeded, a retryable error with retries left at claim time ends retrying after 2^min(count, 8) seconds with one retry more, any other error ends failed; a terminal row is left alone |
| `OperationStore.Store.ProcessMessage` | backend/internal/operation/queue.go:78-119 | A fail-stop run of engine steps that leaves a claimable operation where its workflow's outcome says (succeeded, retrying with its backoff, failed, or at its last report if the worker died) and changes no other row |
| `OperationStore.Store.ProcessMessages` | backend/internal/operation/queue.go:64-76 | The loop stops at the first failure; every processed entry is tried and acknowledged, and each operation stands where the first message about it put it, later ones changing nothing |
| `OperationStore.Store.Dispatch` | backend/internal/outbox/dispatcher.go:25-65 | The batch loop with appends that may fail anywhere and a commit that may be lost computes the specified state |
| `OperationStore.DispatchOutcome` | backend/internal/outbox/dispatcher.go:36-60 | For a failure at any position: committed rows before it are published and delivered, the failing row has one attempt more and is due in 2^min(attempts, 8) seconds, later rows are untouched, and a lost commit publishes nothing but keeps the appends |
| `OperationStore.DispatchLeads` | backend/internal/outbox/dispatcher.go:25-65 | Every batch outcome is a run of engine steps |
| `OperationTheorems.AlwaysInvRun` | backend/internal/store/sqlc/commerce.sql.go:15-20 | Over all runs, slow workers included: a published outbox row is in domain-events, and in operation-queue if it queues an operation; stream entries name their event; keys are unique; active rows have a heartbeat and terminal rows a finish time |
| `OperationTheorems.PublishDelays` | backend/internal/store/sqlc/commerce.sql.go:820-824 | Publish retry delays are 2^min(attempts, 8) seconds, never decrease and never exceed 256 seconds |
| `OperationTheorems.TerminalAbsorbsRun` | backend/internal/store/sqlc/operation.sql.go:110-116 | A terminal row is left unchanged by every run, including steps of stale workers |
| `OperationTheorems.FailStopInvRun` | backend/internal/operation/queue.go:105-119 | The invariant over operations, outbox, queue and live workers is kept by every fail-stop run |
| `OperationTheorems.NoStrandedOperation` | backend/internal/operation/queue.go:64-154 | In every reachable state of a fail-stop run each operation is terminal, or queued and due with an unspent wake-up, or active with a heartbeat, or retrying with a due time; and some fail-stop continuation, without reporting success, brings it to a final status |
| `OperationTheorems.BoundedAttempts` | backend/internal/operation/queue.go:114 | Fail-stop: retry_count never exceeds max_retries and the number of claims is exactly retry_count, plus one once claimed again, so at most max_retries + 1 |
| `OperationTheorems.MoveBurnsFuel` | backend/internal/operation/repository.go:232-241 | Every status move other than a progress report strictly lowers 4 * retries left + status rank |
| `OperationTheorems.MovesAreBounded` | backend/internal/store/sqlc/operation.sql.go:431-479 | A run makes at most 4 * max_retries + 2 moves of a new operation, whatever interleaves |
| `SlowWorkers.StepKeepsBoundIff` | backend/internal/operation/queue.go:114 | With every retry_count in bound, a step of any kind keeps them so if and only if it is no stale retry: a worker retrying from its claim-time count on a row whose count is spent |
| `SlowWorkers.BoundHoldsIff` | backend/internal/operation/queue.go:105-119 | Over any run, slow workers included, the bound holds in every state exactly when no step is a stale retry |
| `SlowWorkers.SlowWorkerBreaksBound` | backend/internal/operation/queue.go:114 | A concrete run with a replaced, still running worker pushes retry_count past max_retries |
| `SlowWorkers.NoStrandedEvenIfSlow` | backend/internal/reconcile/reconciler.go:43-45 | The same wake-up and continuation in every reachable state of every run, replaced workers that are still running included, as long as recovery waits at least as long as the longest backoff |
| `SlowWorkers.TwoMinutesSuffice` | backend/internal/reconcile/reconciler.go:19 | The two-minute recovery age outlasts every backoff of up to seven retries (callers ask for three or five) |
| `SlowWorkers.ImpatientRecoveryStrands` | backend/internal/operation/repository.go:232-241 | Without that wait a complete run strands an operation: queued and due, every wake-up spent |
| `Placement.BeforeIsTotalOrder` | backend/internal/store/sqlc/infrastructure.sql.go:671-678 | The candidate order (highest utilisation, weight descending, id) is total, asymmetric and transitive |
| `Placement.ScoreIsGreatest` | backend/internal/store/sqlc/infrastructure.sql.go:671-675 | The score is an upper bound of the cpu, memory and disk shares and one of them |
| `Placement.BestIsUnique` | backend/internal/store/sqlc/infrastructure.sql.go:671-678 | The ORDER BY leaves no ties, so the first row is determined |
| `Placement.Best` | backend/internal/infrastructure/scheduler.go:49-56 | The chosen node is a candidate that precedes every other candidate |
| `Placement.BestIsLeastLoaded` | backend/internal/store/sqlc/infrastructure.sql.go:671-678 | In whole numbers: no decisive resource of the chosen node would be fuller than the fullest of any eligible node, and among equally full nodes it has the greatest weight, then the least id |
| `Capacity.ReserveInserts` | backend/internal/infrastructure/scheduler.go:38-85 | Whatever the lookup saw, Reserve changes the pool at most by one fitting row and its counter increment, for an operation without a row |
| `Capacity.SettleKeepsInv` | backend/internal/store/sqlc/infrastructure.sql.go:92-110 | Commit, release or expiry of a reserved row keeps all six counters of every node equal to the sums of their rows |
| `Capacity.StepKeepsInv` | backend/internal/runman/repository.go:53 | Every step, a heartbeat with new totals included, keeps the pool conserved |
| `Capacity.CapacityConserved` | backend/internal/infrastructure/scheduler.go:25-134 | After any interleaving, lost insert races included, reserved and allocated equal the sums over reserved and committed rows for each node and resource, and neither CHECK constraint is ever violated |
| `Capacity.SettledIsFinal` | backend/internal/infrastructure/scheduler.go:110-126 | Over any run a row changes at most once, from reserved to one final status, and in nothing else |
| `Capacity.PlacementOptimal` | backend/internal/infrastructure/scheduler.go:44-64 | A valid new request fails exactly when no node is open to it with room for all six resources; otherwise it lands on the least loaded one, compared by whole-number fractions, weight and id, and adds exactly one row |
| `Capacity.ReserveVerdict` | backend/internal/infrastructure/scheduler.go:25-86 | What Reserve answers and writes in every case: invalid request, row already seen, no eligible node, row of a lost race, or a new row of the requested size and lifetime on the least loaded node |
| `Capacity.OneReservationPerOperation` | backend/internal/infrastructure/scheduler.go:38-85 | Once an operation has a row, every later Reserve for it, however stale its lookup, changes nothing and every granted reply names that row |
| `CapacityStore.Store.Reserve` | backend/internal/infrastructure/scheduler.go:25-86 | Selection, increment, insert and rollback on a unique violation compute the specified pool and reply |
| `CapacityStore.Store.SelectCandidate` | backend/internal/store/sqlc/infrastructure.sql.go:655-678 | None exactly when no node is eligible, otherwise the least loaded eligible node |
| `CapacityStore.Store.ChangeStatus` | backend/internal/infrastructure/scheduler.go:96-134 | Commit and release: granted exactly for a row that is reserved or already there, absent and other final statuses refused, the row's status written and the counters moved with it |
| `CapacityStore.Store.Heartbeat` | backend/internal/runman/repository.go:43-55 | Positive cpu, memory and disk readings replace those totals, exactly when what is allocated and reserved still fits; facts join the capabilities and nothing else changes |
| `CapacityStore.Store.ExpireReservations` | backend/internal/reconcile/reconciler.go:67-116 | Exactly the picked rows become expired, no node changes except in reserved, and the counters stay equal to the sums |
| `ProvisioningRuns.StepKeepsInv` | backend/internal/provision/workflow.go:26-143 | Every transaction of the composed system keeps the invariant over orders, subscriptions, instances, operations, reservations and workflows |
| `ProvisioningRuns.CountersAreSums` | backend/internal/provision/repository.go:199-212 | With Finalize, retries and expiry interleaved, every counter of every node is the sum of its rows and allocated + reserved stays within the total |
| `ProvisioningRuns.CapacityBehindActivation` | backend/internal/provision/repository.go:192-237 | A purchased subscription that has left pending has a committed reservation of its own provision operation, and its instance sits on that node |
| `ProvisioningRuns.LostReservationNeverActivates` | backend/internal/provision/repository.go:203-212 | After its reservation is released or expired, no later run activates the subscription |
| `ProvisioningRuns.ExpiredOnlyWhenFinished` | backend/internal/reconcile/reconciler.go:73-111 | An expired reservation belongs to an operation whose terminal row no later step changes |
| `ProvisioningRuns.FulfilmentIsExact` | backend/internal/provision/repository.go:91-136 | In every reachable state an order in progress has exactly quantity subscriptions and instances, one per index, and any other order none; an item lacks its operation only while another one holds its key |
| `ProvisioningOutcomes.EnsureCreatesOperationIff` | backend/internal/provision/repository.go:112-127 | After EnsureForPaidOrder an item has its operation if and only if, before the call, it had it or its idempotency key was free |
| `ProvisioningOutcomes.QuantityOperationsIff` | backend/internal/provision/repository.go:91-136 | After the call the order has at most quantity provision operations, and exactly quantity if and only if before it every item had its operation or a free key |
| `ProvisioningOutcomes.OperationIsSettled` | backend/internal/provision/repository.go:113-116 | No later run repairs or undoes it: an existing item keeps or lacks its operation for good |
| `ProvisioningOutcomes.ForeignKeyLosesOperation` | backend/internal/provision/repository.go:113-116 | A four-step run in which a client's operation holds the key: subscription and instance exist, the operation never does |
| `ProvisioningOutcomes.SucceededMeansActivated` | backend/internal/operation/queue.go:105-107 | End to end: in every reachable state, with all interleavings, a succeeded provision operation has its subscription activated and its instance on the node of its own committed reservation |
| `ProvisioningOutcomes.FinalizeVerdict` | backend/internal/provision/repository.go:192-237 | Finalize goes through exactly on a reserved or committed row and a subscription that is or can become active, and then writes the committed row, the first period of a pending subscription by the calendar, both events, and fulfilment exactly when all subscriptions of the order are active |
| `ProvisioningTerms.EnsureWrites` | backend/internal/provision/repository.go:91-136 | Each item without rows gets a pending subscription with the order's owner, price and cycle and an unplaced instance, and a queued operation with five retries if its key is free; existing rows stay |
| `ProvisioningTerms.DeliveredAsBought` | backend/internal/provision/workflow.go:40-44 | In every reachable state a subscription has its order's owner, price and cycle, and an activated one a committed reservation of exactly its plan's six amounts on its instance's node |
| `ProvisioningOutcomes.StepExcess` | backend/internal/provision/repository.go:213-232 | A step of the system writes one event more than version increments of a subscription if and only if it is a Finalize whose workflow read a non-active status and the row is active before it |
| `ProvisioningOutcomes.VersionsPairedInSystem` | backend/internal/provision/repository.go:213-232 | In every reachable state, events + 1 equals the version plus the number of redundant Finalize steps of the run |
| `ProvisioningOutcomes.RedundantOnlyAfterLapse` | backend/internal/provision/repository.go:213-219 | With workers that stop, a Finalize is redundant only if its workflow saw the subscription past due or suspended and it has become active again |
| `ProvisioningWitnesses.TwoWorkflowsBreakPairing` | backend/internal/provision/repository.go:213-232 | A complete run with a replaced, still running worker: both workflows finalize, version 2 with two activation events |
| `ProvisioningWitnesses.LapseBreaksPairing` | backend/internal/provision/repository.go:213-232 | A complete fail-stop run: crash after Finalize, lapse, second workflow, renewal, second Finalize; version 4 with four events |
| `ProvisioningRuns.FulfilledMeansActivated` | backend/internal/store/sqlc/provision.sql.go:383-390 | A fulfilled order has had all its quantity subscriptions activated, each on committed capacity |
| `ProvisioningRuns.OrderStatusAdvances` | backend/internal/store/sqlc/provision.sql.go:373-390 | Order status only moves pending, paid, fulfilling, fulfilled, and nothing else of an order changes |
| `Storefront.StepKeepsInv` | backend/internal/commerce/repository.go:294-320 | Shop and provisioning joined over the same orders and subscriptions: every sale, webhook and provisioning step keeps both invariants and their agreement, and is a step of the provisioning system or none |
| `Storefront.OwnStepsEnabled` | backend/internal/provision/repository.go:74-144 | The joint system forbids no step the provisioning system can take by itself |
| `Storefront.NothingBeforePayment` | backend/internal/provision/repository.go:81-84 | Every subscription belongs to a purchase order whose payment was captured exactly once, in full and balanced, and its index is within the quantity |
| `Storefront.FulfilledIsPaidFor` | backend/internal/store/sqlc/provision.sql.go:383-390 | From money to machines: a fulfilled order was captured exactly once, in full and balanced, for the plan's unit price times the quantity, and all its quantity subscriptions were activated on committed capacity |
| `ProvisioningRuns.EnsureIsIdempotent` | backend/internal/provision/repository.go:74-144 | A second EnsureForPaidOrder changes nothing |
| `ProvisioningRuns.SystemRunsEngine` | backend/internal/provision/repository.go:120-135 | The engine inside the composed system only takes steps of its own protocol |
| `ProvisioningRuns.NoStrandedProvisioning` | backend/internal/provision/workflow.go:26-131 | With fail-stop workers every operation of the composed system has its wake-up, a retry count in bound, and a continuation of the composed system that brings it to a final status |
| `ProvisioningStore.Store.EnsureForPaidOrder` | backend/internal/provision/repository.go:74-144 | The loop over the quantity computes the specified tables; refused for unpaid orders and plans without a node group |
| `ProvisioningStore.Store.Finalize` | backend/internal/provision/repository.go:192-237 | One transaction: commit, activation, fulfilment and events, or no change at all |
| `ProvisioningStore.Store.Execute` | backend/internal/provision/workflow.go:26-131 | The reply is exactly what tables and provider dictate: incomplete context, invalid size, no eligible node, provider not running, unknown, retryable or fatal error, done for a running instance on capacity not lost with a pending or active subscription, otherwise finalize failed; done delivers the first period, a running instance and the order if complete, any other reply leaves orders and subscriptions alone; only steps of the composed system are taken |
| `ProvisioningStore.Store.GiveUp` | backend/internal/provision/workflow.go:133-143 | With either clean-up transaction possibly lost: a committed release leaves no reserved row for the operation, a lost one leaves the pool as it was, and the instance is marked unless it runs |
| `ProvisioningStore.LostReleaseExpires` | backend/internal/reconcile/reconciler.go:73-111 | A row whose release was lost can be expired once its operation is final and its time is up, and then nothing is reserved |
| `Calendar.CalendarIsGregorian` | backend/internal/store/sqlc/subscription.sql.go:299-303 | The month-by-month calendar agrees with the closed Gregorian formula for every year |
| `Calendar.AddMonthsLandsInMonth` | backend/internal/store/sqlc/subscription.sql.go:299-303 | Adding n months lands n months later, whatever is clipped |
| `Calendar.AddMonthsKeepsDay` | backend/internal/store/sqlc/subscription.sql.go:299-303 | The day of the month is kept if the target month has it, otherwise the last day of that month is taken |
| `Calendar.AddMonthsIff` | backend/internal/store/sqlc/subscription.sql.go:299-303 | Adding months is exactly: n months later, same time of day, same or last day of the month; nothing else satisfies it |
| `Calendar.AddMonthsRoundTrip` | backend/internal/store/sqlc/subscription.sql.go:299-303 | Adding n months and taking them off again returns the same moment whenever nothing was clipped |
| `Calendar.AddMonthsIncreases` | backend/internal/store/sqlc/subscription.sql.go:299-303 | t < t + n months for n > 0 |
| `Calendar.AddMonthsToDayMonotone` | backend/internal/store/sqlc/subscription.sql.go:299-303 | Month addition keeps the order of days |
| `Calendar.AddMonthsMonotoneIff` | backend/internal/store/sqlc/subscription.sql.go:299-303 | Timestamp order is lost exactly when both days are clipped to the same month end and the earlier timestamp has the later time of day |
| `Calendar.AddMonthsNotMonotone` | backend/internal/store/sqlc/subscription.sql.go:299-303 | 30 January 23:00 and 31 January 01:00 swap order |
| `Subscriptions.ClaimMatchesDecision` | backend/internal/store/sqlc/subscription.sql.go:15-22 | The claim query selects exactly the rows the decision acts on |
| `Subscriptions.LifecycleWrites` | backend/internal/subscription/repository.go:130-141 | What a due row becomes, with its times and event, and that no other row changes |
| `Subscriptions.StepKeepsRecord` | backend/internal/subscription/repository.go:40-141 | Every step keeps the row clauses of the record invariant |
| `Subscriptions.StepPairsVersion` | backend/internal/store/sqlc/provision.sql.go:16-33 | A step adds as many events as version increments if and only if it is not a Finalize that read a non-active status and finds the row active |
| `Subscriptions.RecordInvariant` | backend/internal/subscription/repository.go:40-141 | Over all runs: grace_until set exactly in past_due and suspended and equal to period end + grace, ended_at set exactly when cancelled, cancel flag only in active or cancelled, next_due_at equal to the period end, and events minus version increments equal to the number of redundant Finalize calls |
| `Subscriptions.RedundantFinalizeBreaksPairing` | backend/internal/provision/repository.go:213-232 | Two workflows that both started while pending give version 2 and two activation events |
| `Subscriptions.CancelledIsFinal` | backend/internal/subscription/repository.go:130-141 | A cancelled row never changes again and no step leads back to pending |
| `Subscriptions.ActivationStarts` | backend/internal/store/sqlc/provision.sql.go:16-33 | Activation of a pending row starts its first period now and ends it one calendar cycle later; on an active row it changes nothing |
| `Subscriptions.ToggleSchedules` | backend/internal/subscription/repository.go:54-68 | A toggle writes flag, version and event exactly on an active row whose flag differs |
| `Subscriptions.RenewalExtends` | backend/internal/store/sqlc/subscription.sql.go:291-314 | A renewal ends one, three or twelve calendar months past the later of old end and payment time, strictly beyond both, restarts the period only if it had ended, and clears grace, cancellation and end |
| `Subscriptions.RenewalsAccumulate` | backend/internal/store/sqlc/subscription.sql.go:291-314 | With payments on time, a run moves the end by exactly as many successive calendar cycles as it has renewals |
| `Subscriptions.PeriodEndNeverRetreats` | backend/internal/store/sqlc/subscription.sql.go:291-314 | Over any run, late payments included, the period end never moves back, and moves strictly forward if there is a renewal |
| `Subscriptions.LifecyclePathIndependent` | backend/internal/subscription/repository.go:92-141 | Batches of any choice at increasing times up to T, once drained, leave every row and its events as a one-shot specification at T says (up to the time of cancellation) |
| `Subscriptions.DrainTerminates` | backend/internal/subscription/repository.go:92-121 | All batches together make at most two transitions per subscription; each batch lowers the potential by at least its size |
| `Subscriptions.TwoTransitions` | backend/internal/subscription/repository.go:92-141 | Any run of batches, drained or not, adds to a subscription's events nothing, one transition, or past due followed by suspended |
| `SubscriptionStore.Store.SetCancelAtPeriodEnd` | backend/internal/subscription/repository.go:40-79 | Not found, invalid state and unchanged cases; otherwise one toggle with its event |
| `SubscriptionStore.Store.ProcessBatch` | backend/internal/subscription/repository.go:92-121 | The loop is one batch of the specification, and an empty unlocked batch means the table is drained |
| `Commerce.OverflowGuardExact` | backend/internal/commerce/repository.go:79-82 | The guard refuses exactly the products above the int64 range, and the 64-bit product is exact otherwise |
| `CommerceTheorems.PurchaseVerdict` | backend/internal/commerce/repository.go:55-125 | What a purchase request answers and writes in every case; a new one bills exactly unit price times quantity, on order, invoice and payment alike, for the requested user, key and currency |
| `CommerceTheorems.RenewalVerdict` | backend/internal/commerce/repository.go:127-198 | What a renewal request answers and writes in every case; a new one bills the subscription's own price |
| `CommerceTheorems.WebhookVerdict` | backend/internal/commerce/repository.go:241-362 | A webhook captures exactly if it is the first fitting one (amount, currency, gateway id, renewable subscription) of an open payment, is a duplicate exactly if it repeats what is known, and otherwise changes nothing; a capture writes payment, order, invoice, receipt, ledger, outbox and renewal as listed |
| `CommerceTheorems.CaptureMovesCash` | backend/internal/commerce/repository.go:325-328 | A capture raises the gateway's cash by the amount, lowers the receivable by it and touches no other account |
| `CommerceTheorems.StepKeepsInv` | backend/internal/commerce/repository.go:241-362 | Every order, webhook and subscription step keeps the invariant over payments, orders, invoices, receipts, ledger and outbox |
| `CommerceTheorems.ExactlyOnceCapture` | backend/internal/commerce/repository.go:241-362 | Over any sequence of webhooks and orders a succeeded payment has exactly one balanced capture, one payment.succeeded event and, for a renewal, one subscription.renewed event, and any other payment none; order and invoice are paid exactly then; every receipt belongs to a succeeded payment |
| `CommerceTheorems.RedeliveryIsHarmless` | backend/internal/commerce/repository.go:248-290 | A webhook accepted once is answered as a duplicate without effect after any run |
| `CommerceTheorems.RunGrows` | backend/internal/store/sqlc/commerce.sql.go:793-835 | Succeeded and failed payments, receipts, ledger and outbox are never rewritten |
| `CommerceTheorems.OneOrderPerKey` | backend/internal/commerce/repository.go:55-198 | Two successful replies for one user and key name the same order, whatever ran between and however stale the lookups |
| `CommerceTheorems.CreationIsAtomic` | backend/internal/commerce/repository.go:84-123 | A creation inserts order, invoice and payment together, only on a free key and only if no statement of it fails; otherwise it changes nothing |
| `CommerceStore.Store.InsertOrder` | backend/internal/commerce/repository.go:84-123 | With a failure at any insert or at commit, the rows inserted before it are rolled back |
| `CommerceStore.Store.CreateOrder` | backend/internal/commerce/repository.go:55-125 | Checks, stale lookup, insert and fallback compute the specified tables and reply; a new order, its invoice and its payment ask for unit price times quantity |
| `CommerceStore.Store.CreateRenewalOrder` | backend/internal/commerce/repository.go:127-198 | The same for renewals, with the subscription's owner and state checked and its own price billed |
| `CommerceStore.Store.CompletePayment` | backend/internal/commerce/repository.go:241-362 | The webhook transaction computes the specified tables and reply in every branch |
| `CommerceStore.Store.CapturePayment` | backend/internal/commerce/repository.go:294-361 | The capture writes all tables, or rolls all of them back when the subscription cannot be renewed |
| `Renewals.RenewedOncePerPayment` | backend/internal/commerce/repository.go:279-320 | Any run changes a subscription like its own trace, and renews it exactly as often as renewal payments of it became paid |
| `Renewals.KPaymentsExtendKCycles` | backend/internal/commerce/repository.go:303-320 | If all k payments arrive by the then-current end, the final end is exactly k successive calendar cycles past the first, whatever interleaves |
| `Ledger.ValidateBalanced` | backend/internal/commerce/repository.go:392-412 | With 64-bit accumulation, accepted exactly when all amounts are non-negative, all directions valid and every currency nets to zero modulo 2^64 |
| `Ledger.ExactWhenTotalFits` | backend/internal/commerce/repository.go:392-412 | For every valid list whose total is below 2^64, so whenever it fits in int64, acceptance is equality of debits and credits per currency |
| `Ledger.ModuloIsNotExact` | backend/internal/commerce/repository.go:392-412 | The bound is tight: three debits that sum to exactly 2^64 are accepted without being balanced |
| `Wallets.WrappedSumIsExact` | backend/internal/admin/repository.go:126-128 | The wrapped sum is negative exactly when the true new balance leaves [0, MaxInt64] |
| `Wallets.AdjustKeepsBooks` | backend/internal/admin/repository.go:129-148 | An accepted adjustment keeps every balance equal to credits minus debits and every transaction balanced |
| `Wallets.WalletIsProjection` | backend/internal/admin/repository.go:107-162 | Over every run of adjustments balances equal credits minus debits, are never negative or too large, and transactions balance |
| `Wallets.MinAmountIsRefused` | backend/internal/admin/repository.go:134-139 | The magnitude of MinInt64 wraps to a negative amount, but that request is always refused |
| `Wallets.Accounts.AdjustWallet` | backend/internal/admin/repository.go:107-162 | Refused exactly for invalid input or a new balance out of range; otherwise balance and ledger move together |
| `AgentCommands.FirstCompletionWins` | backend/internal/runman/repository.go:106-120 | Under any mix of creation, dispatch marks and completions a final command never changes and identities are kept |
| `AgentCommands.ReplayIsIdempotentIff` | backend/internal/runman/repository.go:72-89 | Repeating an accepted request returns the same command if and only if it has not completed with a password to strip; otherwise it conflicts |
| `AgentCommands.PayloadKept` | backend/internal/runman/repository.go:118 | Over any run a stored payload changes only by losing the password of a completed create, reinstall or reset_password |
| `AgentCommands.DuplicatesAreRefused` | backend/internal/runman/repository.go:35-42 | A claimed message is refused for five minutes and accepted afterwards, unless its node releases it |
| `AgentGateway.SentOncePerConnection` | backend/internal/runman/gateway.go:85-153 | On every connection of every run, replay and dispatch never repeat a command: a later copy was always handed over directly |
| `AgentGateway.RepeatsIff` | backend/internal/runman/gateway.go:116-153 | A step repeats a command on a connection if and only if it hands over a supported command that the connection has already sent |
| `AgentGateway.CopiesAreHandOvers` | backend/internal/runman/gateway.go:107-139 | Over any run the stream carries exactly as many extra copies as there were such hand-overs |
| `AgentGateway.AtMostOnceIff` | backend/internal/runman/gateway.go:85-153 | From connect on, every command is on the stream at most once if and only if no hand-over repeated one |
| `AgentGateway.HandOverRepeats` | backend/internal/runman/gateway.go:116-119 | A command replayed on connect and then handed over directly goes out twice |
| `AgentGateway.ReplaySendsEverything` | backend/internal/runman/gateway.go:85-90 | Once the replay loop is through, every supported command the connect-time read returned is on the stream |
| `AgentGateway.DueIsUnfinished` | backend/internal/runman/repository.go:90-105 | What a successful connect-time read returns is exactly the node's unfinished commands |
| `AgentGateway.TickLooksAtUnfinished` | backend/internal/runman/gateway.go:128-130 | A dispatch tick looks at exactly the node's unfinished commands, in creation order |
| `AgentGateway.NextVerdict` | backend/internal/runman/gateway.go:130-153 | What the loop does with a command: passed over if dispatch already sent it, sent if one of the ten kinds, failed in the store otherwise |
| `AgentStore.Store.CreateCommand` | backend/internal/runman/repository.go:72-89 | A new queued row on a free key; an existing one is accepted exactly for the same node, kind and payload |
| `AgentStore.Store.Pending` | backend/internal/runman/repository.go:90-105 | The node's unfinished commands in creation order |
| `AgentStore.Store.Complete` | backend/internal/runman/repository.go:110-120 | The first completion sets succeeded or failed with result and error, and strips the password of the three secret kinds; later ones change nothing |
| `AgentStore.Store.HandleResult` | backend/internal/runman/gateway.go:155-171 | A result takes effect exactly when its message is claimed; a failed handling gives the claim back, and if that is lost too the claim stays for its window |
| `AgentStore.Store.Issue` | backend/internal/runman/runman.go:88-131 | Success is returned only for a succeeded command with the requested key, node and kind, and whenever the command has succeeded by the time of the answer; likewise failure |
| `AgentStore.Link.SendCommand` | backend/internal/runman/gateway.go:142-153 | An unsupported command is failed, if the store takes it, without being sent; any other is on the stream and remembered exactly when the send succeeds, even if its dispatch mark then fails and ends the connection |
| `AgentStore.Link.Replay` | backend/internal/runman/gateway.go:85-90 | If it completes, the stream carries the supported unfinished commands, each once, in creation order |
| `AgentStore.Link.DispatchTick` | backend/internal/runman/gateway.go:128-137 | Only commands not sent before go out, each once, and a completed tick leaves no supported pending command unsent |

## Left out

- HTTP handlers, configuration, metrics, migrations other than the constraints used, and the frontend: no hard property.
- Providers: their answers are inputs of the workflow; their own behaviour is not part of this model.
- PostgreSQL locking and SKIP LOCKED: a committed transaction is atomic, and a batch may pick any eligible rows.
- Display columns (phase, progress, message keys, error texts, started_at), operation_steps rows, audit rows and notifications: no transition reads them.
- Malformed stream entries and unregistered workflow types: they only fail or acknowledge an entry.
- The partial unique index on active instance actions: it can only make Create refuse more requests.
- JSON: payloads are compared as values, and the decoded event is a field of the payload.
- Derived identifiers: subscription, instance and operation of an item are named by its order and index; random identifiers never collide with them.
- Order, invoice and payment rows that one transaction inserts share one number.
- Calendar arithmetic is in UTC; currency upper-casing covers ASCII letters only.
- Node capabilities are string-valued; utilisation is compared as exact rationals, not as rounded numerics.
- ProvisioningStore.Store.Execute: runs the workflow without other steps in between, and leaves out its progress reports; what success means under every interleaving is `SucceededMeansActivated`.
- AgentGateway.SentOncePerConnection: does not bound direct hand-overs, because the code does not; `RepeatsIff` and `CopiesAreHandOvers` account for them exactly.
- The instance drift loop, node heartbeat expiry and port forwards: they depend on provider state.
- Passwords, sessions, tokens, TOTP and signatures: cryptography.
