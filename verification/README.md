# PayCore verified

A Dafny model of PayCore's four protocols, which share one database, and of its rate limiter, with
proofs of what they promise over every run.

- **Ledger.** Authorizing, capturing and expiring payments moves money between a payer's available and
  held balances, and moves payments, holds and the event log along with it. `Ledger` gives the
  transactions as all-or-nothing functions; `Stores` and `PaymentService` are the repositories and the
  service as classes that write row by row, proved against those functions, both with a database that
  rolls back and with the in-memory one that does not. `LedgerInvariant`, `LedgerProofs` and `Expiry`
  carry the invariant through every write. `Transactions` says what an authorization and a capture answer
  and write, field by field; `EventRows` proves that every event ever logged repeats the row of its payment.
- **Settlement.** `Settlement` and `SettlementService` claim captured payments of a window into a batch,
  settle them with line items, and take over stale batches. `SettlementInvariant`, `SettlementLoop`,
  `SettlementRuns` and `CrashRecovery` prove what a run and a recovery do, also on a batch left half
  settled, a state the code never commits; `Windows`, `Coverage` and `Losses` prove exactly which payments
  the worker's schedule reaches and which it loses; `Lease` is the batch's lock.
- **Whole system.** `Machine` runs any finite sequence of these transactions, failed ones rolled back,
  and, as a hypothetical action, settlements interrupted between payments. `Theorems` states what holds in
  every reachable state. `Versions`, `Concurrency`, `TornReads` and `TornForever` interleave the reads and
  commits of concurrent authorizations and captures, a capture's three reads one by one.
- **Outbox.** `Outbox` and `OutboxWorker` are the event store and the publishing worker; `OutboxRuns`
  interleaves any number of workers that may crash, and joins their promises with the ledger's; `BatchHistory`
  shows that what the worker does in a batch is a history of that interleaving. The ledger
  sees the outbox table as a log it appends to (`Stores.EventStore`), the workers as rows with a delivery
  state (`Outbox.Store`); the two views of the one table meet in `OutboxRuns.AnnouncedOnce`, for workers
  that are only given events of the log.
- **Idempotency.** `Idempotency` is the record store, the lossy response cache and the service in front
  of them; `Handler` is the pair of payment endpoints; `IdempotencyRuns` interleaves concurrent requests,
  crashes and cache losses over the ledger, and `IdempotencyAnswers` proves which keys can still be answered
  and what their answers say.
- **Rate limiter.** `RateLimit` is the fixed-window counter, and its bound over any interval.

`Common`, `Sums` and `Ranking` hold results, 64-bit arithmetic, sums over maps, and the order behind every
"order by ... limit"; `Scenario` is the small world of the concrete histories. Instants are integer
nanoseconds since the zero time. Random ids, clock readings and the broker's answers are parameters. Each
transaction exists twice: as a function on values, about which the theorems speak, and as a method that updates
the stores, whose contract ties it to the function; what either returns and writes is stated besides in the
fields of the rows, with durations in nanoseconds.

## Model

| member | source | states |
|---|---|---|
| Entities.ReserveThenRelease | internal/payer/entity.go:62-105 | releasing a reservation restores the payer, two versions later, exactly when the reservation did not overflow the held balance |
| Stores.PayerStore.UpdatePayer | internal/payer/adapters/memory/repository.go:70-90 | compare-and-set: a missing payer or a version that is not the successor is refused and changes nothing |
| Stores.PayerStore.CreatePayer | internal/payer/adapters/memory/repository.go:21-36 | inserts a new payer or refuses a duplicate id |
| Stores.PayerStore.GetPayer | internal/payer/adapters/memory/repository.go:38-52 | returns the stored payer or reports it missing |
| Stores.PaymentStore.CreatePayment | internal/payment/adapters/memory/repository.go:27-42 | inserts a payment or refuses a duplicate id |
| Stores.PaymentStore.GetPayment | internal/payment/adapters/memory/repository.go:44-58 | returns the stored payment or reports it missing |
| Stores.PaymentStore.UpdatePayment | internal/payment/adapters/memory/repository.go:97-112 | overwrites an existing payment only, and touches nothing else |
| Stores.PaymentStore.CreateHold | internal/payment/adapters/memory/repository.go:114-134 | inserts a hold with its index entry, or refuses a duplicate hold or a second hold of the payment |
| Stores.PaymentStore.GetHoldByPaymentID | internal/payment/adapters/memory/repository.go:152-171 | finds the hold through the index, or reports it missing |
| Stores.PaymentStore.UpdateHold | internal/payment/adapters/memory/repository.go:173-188 | overwrites an existing hold and its index entry |
| Stores.PaymentStore.ListExpiredAuthorizedPayments | internal/payment/adapters/memory/repository.go:60-95 | filter, sort and truncate return the authorized payments that expired first, in order of expiry and then of id, no more than a positive limit, and all of them without one |
| Ledger.SelectionIsFirstDue | internal/payment/adapters/memory/repository.go:60-95 | the selected rows, in their own fields: each authorized and expired, ascending by expiry and id, and each before every such payment left out |
| Stores.EventStore.CreateEvent | internal/outbox/adapters/memory/repository.go:23-38 | appends an event to the log or refuses a duplicate id |
| Ranking.LeastIdsUnique | internal/payment/adapters/memory/repository.go:79-92 | a selection of the k least rows in order is unique, so sorting and truncating is the specified selection |
| Ranking.IdLessExactly | internal/payment/adapters/memory/repository.go:79-85 | ids compare by their first different character, a prefix first |
| Ranking.Sort | internal/payment/adapters/memory/repository.go:79-85 | sorting rows of distinct rank permutes them into ascending order |
| PaymentService.Service.AuthorizePayment | internal/payment/service.go:187-312 | ends as the all-or-nothing authorization: same result, same ledger, and an untouched ledger on every error, with rollback or, given fresh ids, without; the answer and its rows are also given field by field |
| PaymentService.Service.AuthorizeInTx | internal/payment/service.go:191-303 | the callback alone, before any rollback, already computes the specified rows and result |
| Transactions.AuthorizeExactly | internal/payment/service.go:187-312 | when an authorization succeeds, if and only if; which error each refusal gives, in the order of the checks; and on success whose payment it is, of what amount and currency, until 15 minutes later, with its hold and its payer's balances |
| PaymentService.Service.CapturePayment | internal/payment/service.go:314-413 | ends as the all-or-nothing capture, on every error branch, under either transactor; the answer and its rows are also given field by field |
| PaymentService.Service.CaptureInTx | internal/payment/service.go:318-404 | the callback's row-by-row updates amount to the specified capture |
| Transactions.CaptureExactly | internal/payment/service.go:314-413 | when a capture succeeds, if and only if; which error each refusal gives, in the order of the checks; and the captured payment, hold and payer in full |
| PaymentService.Service.ExpireRow | internal/payment/service.go:434-502 | one round of the loop, from the row read at the start of the run |
| Transactions.ExpireExactly | internal/payment/service.go:434-502 | what a round of the expiry loop answers, error by error in the order of its checks, and the expired payment, released hold and repaid payer in full |
| PaymentService.Service.ExpireRows | internal/payment/service.go:434-502 | the loop is the specified run over the list, stops at its first error, and reports the rows each round wrote |
| PaymentService.Service.ExpireAuthorizedPayments | internal/payment/service.go:415-512 | ends as the specified run and returns the payments that were due first, expired; from a good ledger with fresh event ids it cannot fail, so no rollback is ever needed |
| PaymentService.ReportsExpired | internal/payment/service.go:415-512 | the payments a run returns are the at most limit, or 100, that expired first, unchanged but for status and timestamp |
| PaymentService.Service.Rollback | internal/shared/db/postgres_transactor.go:40-48 | a failed callback's writes are undone |
| LedgerInvariant.NoOverflow | internal/payer/entity.go:62-105 | in a balanced ledger available plus held never exceeds the opening balance, and covers each authorized amount |
| LedgerProofs.WriteKeepsInv | internal/payment/service.go:252-303 | any write whose rows fit together, that moves money without creating it and announces itself keeps structure, conservation, replay and announcement counts |
| LedgerProofs.AuthorizeKeepsInv | internal/payment/service.go:187-312 | a successful authorization keeps the ledger invariant |
| LedgerProofs.CaptureKeepsInv | internal/payment/service.go:314-413 | a successful capture keeps the ledger invariant |
| LedgerProofs.ExpireOneKeepsInv | internal/payment/service.go:434-502 | each expiry round keeps the ledger invariant |
| LedgerProofs.CreatePayerKeepsInv | internal/payer/adapters/memory/repository.go:21-36 | a new payer keeps it, including replay from the extended opening balances |
| LedgerProofs.SettleKeepsInv | internal/settlement/service.go:298-360 | settling one payment keeps it |
| Expiry.ExpireOneSucceeds | internal/payment/service.go:435-502 | from a good ledger a round over an authorized payment passes every balance, hold, status and version check |
| Expiry.ExpireListEffect | internal/payment/service.go:434-502 | the loop never fails, even with many payments of one payer, and expires exactly the listed payments |
| Expiry.ExpireExact | internal/payment/service.go:415-512 | a run expires exactly the first `limit` payments, or 100, by (ExpiresAt, ID) of those due, repays each payer the sum of its own, and leaves all else unchanged |
| Expiry.DueShrinks | internal/payment/service.go:415-512 | a run takes min(limit, due) payments off the due set |
| Expiry.CeilRunsDrain | internal/payment/service.go:415-512 | at a fixed time, ceil(due / limit) runs leave none due |
| Machine.ReachableInv | internal/payment/service.go:187-512 | every state reached by any sequence of ledger and settlement transactions, whatever ids are drawn and whatever fails, satisfies the ledger and settlement invariants |
| Theorems.ReachableConservation | internal/payment/service.go:252-270 | opening = available + authorized + captured and settled; held = sum of held holds = sum of authorized payments; balances are non-negative |
| Theorems.ReachableNoWrap | internal/payer/entity.go:62-128 | no addition or subtraction of Reserve or Release leaves the int64 range in a reachable state |
| Theorems.ReachableReplay | internal/payment/service.go:272-300 | folding the event payloads from the opening balances gives every balance and every payment status |
| EventRows.ReachableEvents | internal/payment/service.go:272-300 | in every reachable state each event repeats the row of its payment: merchant, payer, amount, currency, hold, the instants of authorization, expiry, capture and settlement, and the settling batch; and no two events share an id |
| EventRows.ReachableSold | internal/payment/service.go:191-245 | in every reachable state each payment belongs to an active merchant and expires 15 minutes after its authorization |
| Theorems.ReachableSingleExit | internal/payment/entity.go:110-153 | a hold leaves the held balance at most once, by capture or expiry, and payment and hold statuses stay paired |
| Theorems.CaptureOrExpire | internal/payment/service.go:336-357 | alone, a capture succeeds exactly for an authorized payment not past its expiry, and an expiry round exactly for an authorized one, also where both are enabled |
| Theorems.ReachableHoldIndex | internal/payment/adapters/memory/repository.go:114-188 | the index finds exactly the unique hold a full scan would find, or nothing when there is none |
| Theorems.ReachableSettlement | internal/settlement/service.go:294-367 | settled if and only if exactly one line item, in the claiming batch; completed batches are wholly settled and inside their window; batch totals match |
| Theorems.ReachableSettledOnce | internal/settlement/service.go:336-357 | each payment is announced as settled once if it is settled and never otherwise |
| Versions.StepGuarded | internal/payer/adapters/memory/repository.go:78-87 | no transaction changes a payer, or one of its authorized payments or their holds, without raising the payer's version |
| Concurrency.CommitIsAlone | internal/payment/service.go:319-372 | a commit that passes its version check does what the whole transaction would do alone at that point, if and only if the payment and hold rows it read were still stored when it read the payer |
| Concurrency.VersionDecides | internal/payer/adapters/memory/repository.go:78-87 | while the version holds, the commit's result is that of the lone run, error for error, except for a torn capture of an authorized payment, whose lone run is refused; without the version no commit succeeds |
| Concurrency.Serializable | internal/payment/service.go:318-404 | an interleaving of single reads, commits and all other transactions in which no torn capture commits ends in the database of the serial run in commit order |
| TornReads.SerializableExactly | internal/payment/service.go:318-404 | an interleaving stays the serial run in commit order, step for step, if and only if no capture commits whose payment or hold changed before its payer was read |
| TornForever.SerializableSomehow | internal/payment/service.go:318-404 | the database an interleaving ends in is that of some serial run, of any transactions in any order, if and only if no torn capture has committed |
| TornForever.TornIsForever | internal/payment/service.go:374-395 | a torn commit leaves two announced exits of one payment in the log, whatever happens later |
| TornReads.SnapshotsSerializable | internal/payment/service.go:319-332 | under the assumption that each capture's three reads are one instant, which the code does not enforce, every interleaving is serializable |
| TornReads.TornCapture | internal/payment/service.go:319-372 | a capture straddled by another capture of its payment passes its version check and takes the amount from the held balance again |
| TornReads.TornByExpiry | internal/payment/service.go:319-372 | a capture straddled by the payment's expiry spends the amount the expiry refunded |
| TornReads.TornHistory | internal/payment/service.go:314-413 | from any serializable history with enough held, five steps announce one capture twice and break the ledger invariant |
| TornReads.TornExists | internal/payment/service.go:314-413 | the concrete history, from the empty database |
| SettlementService.SettlementStore.CreateLineItem | internal/settlement/adapters/postgres/repository.go:309-358 | refuses a second line item of a payment |
| SettlementService.SettlementStore.CreateBatch | internal/settlement/adapters/postgres/repository.go:27-76 | inserts a batch or refuses a duplicate id |
| SettlementService.SettlementStore.UpdateBatch | internal/settlement/adapters/postgres/repository.go:107-153 | overwrites an existing batch only |
| SettlementService.SettlementStore.ListStaleProcessingBatches | internal/settlement/adapters/postgres/repository.go:155-201 | returns the processing batches whose locks ran out first, by lock, creation and id, no more than the limit |
| Settlement.SelectionIsFirstStale | internal/settlement/adapters/postgres/repository.go:172-177 | the selected batches, in their own fields: each processing under a lock that has run out, ascending by (locked_until, created_at, id), and each before every such batch left out |
| SettlementService.Service.ClaimCapturedPayments | internal/settlement/adapters/postgres/repository.go:203-269 | claims the unclaimed captured payments of the window that were captured first, no more than the limit, and stamps them |
| SettlementService.Service.SelectClaimable | internal/settlement/adapters/postgres/repository.go:214-224 | selects the limit-least claimable payments by (captured_at, id) |
| Settlement.LeastAreFirstCaptured | internal/settlement/adapters/postgres/repository.go:214-224 | the claimed payments, in their own fields: captured in the window, in no batch, and each captured before every such payment left out, ids deciding ties |
| SettlementService.Service.StampClaims | internal/settlement/adapters/postgres/repository.go:225-237 | sets the batch and the timestamp of exactly the selected rows, and returns a row for each |
| SettlementService.Service.StartBatch | internal/settlement/service.go:146-169 | inserts a new batch and starts it, or fails as the specified opening does |
| Settlement.OpenBatchExactly | internal/settlement/service.go:146-169 | when a batch can be opened, and which error it meets otherwise |
| SettlementService.Service.ListClaimedPayments | internal/settlement/adapters/postgres/repository.go:271-307 | lists a row for each of the batch's payments still captured, and for no other, ascending by (captured_at, id) |
| SettlementService.ListedAreClaims | internal/settlement/adapters/postgres/repository.go:271-307 | each listed row repeats its payment, field by field, and the rows ascend by instant of capture and id |
| SettlementService.Service.SettleClaimedPayments | internal/settlement/service.go:294-367 | the loop over claims is the specified one, and reports for each claim its line item in full and its settled payment |
| SettlementService.Service.SettleRow | internal/settlement/service.go:298-360 | one round settles the payment, writes its line item and announces it with the payment's own amount, merchant, payer and currency, each field given, and returns the two rows |
| Settlement.SettleOneInFull | internal/settlement/service.go:298-360 | the specified round writes exactly those rows and that event |
| SettlementService.Service.FinishBatch | internal/settlement/service.go:189-197 | completes the stored batch |
| SettlementService.Service.CreateBatchInTx | internal/settlement/service.go:138-208 | the callback alone is the specified batch over the least claimable payments |
| SettlementService.Service.CreateBatch | internal/settlement/service.go:134-215 | commits the specified batch over the payments captured first, or leaves no trace; the returned batch row is given in full, and the error of a bad window or a taken id |
| SettlementService.Service.RecoverBatch | internal/settlement/service.go:242-272 | takes over one stale batch, settles what it still owes and completes it |
| SettlementService.Service.RecoverEach | internal/settlement/service.go:242-277 | the loop recovers the listed batches in order and stops at its first error |
| SettlementService.Service.RecoverStaleBatches | internal/settlement/service.go:217-292 | recovers the abandoned batches whose locks ran out first, all of them or none, and returns each completed by this worker |
| SettlementService.Service.constructor | internal/settlement/service.go:88-132 | an empty worker name, claim limit or lock time is replaced by its default |
| SettlementInvariant.OpenBatchKeepsInv | internal/settlement/service.go:146-182 | inserting, starting and claiming a batch keeps every invariant |
| SettlementInvariant.SettleOneKeepsInv | internal/settlement/service.go:298-360 | settling one claimed payment keeps claims, items and totals consistent |
| SettlementLoop.SettleIdsEffect | internal/settlement/service.go:294-367 | a finished loop settled exactly its payments and kept every invariant |
| SettlementLoop.SettleIdsSucceeds | internal/settlement/service.go:294-367 | with fresh ids the loop cannot fail |
| SettlementRuns.CreateBatchEffect | internal/settlement/service.go:134-205 | a committed batch has settled all its claims, in a good database |
| SettlementRuns.CreateBatchInFull | internal/settlement/service.go:134-215 | a committed batch in full: its row, its claims, and its payments settled at the instant of the run; every other batch, claim and payment is as it was |
| SettlementRuns.SettlePrefixEffect | internal/settlement/service.go:294-367 | the loop stopped after any number of whole payments, a state the code never commits, would keep every invariant |
| SettlementRuns.RecoverEffect | internal/settlement/service.go:226-280 | a recovery settles exactly the captured payments of the batches it took over, and completes those batches, whose rows keep everything else |
| CrashRecovery.RecoverSucceeds | internal/settlement/service.go:226-280 | with fresh ids a recovery cannot fail, whatever it finds |
| CrashRecovery.CrashThenRecover | internal/settlement/service.go:217-292 | were a run stopped after k payments, one covering recovery once its lock expired would give the settled payments, claims, line-item terms and announcements of the uninterrupted run followed by the same recovery |
| CrashRecovery.CrashThenRecoverAlone | internal/settlement/service.go:217-292 | and, where nothing else is stale, those of the uninterrupted run itself, with any limit that admits one batch |
| CrashRecovery.NothingStale | internal/settlement/service.go:229-238 | a recovery with nothing stale changes nothing |
| Lease.LeaseExclusion | internal/settlement/entity.go:73-140 | two ownership intervals of one batch are disjoint, unless the batch was completed or failed in between; the workers' clocks need not agree |
| Lease.StartExactly | internal/settlement/entity.go:73-96 | a batch can be started exactly when new, failed or under an expired lock, with the error and the started row given in full, and then by nobody else until the new lock expires |
| Lease.CompletionIsFinal | internal/settlement/entity.go:73-132 | no attempt changes a completed batch |
| Lease.CompletedForever | internal/settlement/service.go:134-292 | over every run of the whole system a completed batch row never changes |
| SettlementRuns.StaleStarts | internal/settlement/adapters/postgres/repository.go:172-177 | every batch the stale query lists passes StartProcessing at the same instant |
| Windows.WindowOfSlot | cmd/paycore-settlement-worker/main.go:160-173 | a run in one window slot settles exactly the slot before, which ends at or before now, less than a window ago |
| Windows.WindowTurn | cmd/paycore-settlement-worker/main.go:160-173 | an instant is settled by exactly the runs of the next slot |
| Windows.WindowsTile | cmd/paycore-settlement-worker/main.go:160-173 | two windows of one width are equal or disjoint, and it says which |
| Windows.RunWorker | cmd/paycore-settlement-worker/main.go:83-146 | the worker fixes its window, the last whole one before its start, recovers, then settles it; a failed recovery stops it before any batch |
| Coverage.StepAdvances | internal/settlement/adapters/postgres/repository.go:213-231 | captures happen at the step's own instant and are never undone, and claims are never given up |
| Coverage.RunCovers | internal/settlement/adapters/postgres/repository.go:214-231 | a run with a sufficient limit claims everything captured in its window |
| Coverage.RunCoversExactly | internal/settlement/adapters/postgres/repository.go:214-231 | a committed run leaves nothing captured in its window unclaimed if and only if no more payments were claimable than its limit |
| Coverage.LeftSize | internal/settlement/adapters/postgres/repository.go:221-224 | the run leaves exactly the claimable payments beyond its limit |
| Coverage.SlotSettledOnce | cmd/paycore-settlement-worker/main.go:83-173 | once a slot was covered, each payment ever captured in it is in a batch, and settled exactly once when that batch is complete, as it always is without interruptions |
| Coverage.MissedForever | cmd/paycore-settlement-worker/main.go:83-173 | a payment of a slot still unclaimed after the last run started in the next slot is settled by no later worker run |
| Coverage.LeftForever | cmd/paycore-settlement-worker/main.go:83-173 | every payment the last run for its slot left behind stays captured and unclaimed for ever |
| Coverage.SlotCoveredExactly | cmd/paycore-settlement-worker/main.go:83-173 | with a clock that never goes back, every payment ever captured in a slot is claimed if and only if the slot's last run found no more claimable payments than its limit |
| Coverage.LateCaptureLost | internal/payment/service.go:334-372 | a capture stamped in a slot that commits after the slot's last run is settled by no worker run |
| Losses.LossExists | cmd/paycore-settlement-worker/main.go:83-173 | the concrete history, from the empty database, of two captures and a run with a limit of one |
| Coverage.RecoveryIdle | internal/settlement/service.go:138-205 | in every run of the code's own transactions a recovery finds nothing to do |
| Outbox.Store.CreateEvent | internal/outbox/adapters/memory/repository.go:23-38 | inserts a pending row or refuses a duplicate |
| Outbox.Store.ClaimPendingEvents | internal/outbox/adapters/memory/repository.go:40-93 | claims exactly the deliverable events available first, by (AvailableAt, CreatedAt, ID), or none; each claimed row is given in full |
| Outbox.Store.SelectReady | internal/outbox/adapters/memory/repository.go:52-80 | filtering, sorting and truncating return the limit-least ready events |
| Outbox.SelectionIsFirstReady | internal/outbox/adapters/memory/repository.go:52-80 | the claimed events, in their own fields: pending or failed and available, ascending by availability, creation and id, and each before every such event left out |
| Outbox.Store.ClaimEach | internal/outbox/adapters/memory/repository.go:82-92 | claims exactly the selected events, or none when the worker has no name |
| Outbox.ClaimAllExactly | internal/outbox/event.go:95-115 | each claimed event is in progress under its worker, one attempt further, and the others are as they were |
| Outbox.Store.MarkEventPublished | internal/outbox/adapters/memory/repository.go:95-116 | only an event in progress becomes published; the published row is given in full |
| Outbox.Store.MarkEventFailed | internal/outbox/adapters/memory/repository.go:118-139 | only an event in progress becomes failed, and only with an error text; the failed row is given in full |
| Outbox.Store.CollectStats | internal/outbox/adapters/memory/repository.go:157-199 | counts the ready events and measures the oldest one's age |
| Outbox.StatsPredictClaim | internal/outbox/adapters/memory/repository.go:170-196 | stats at the instant of the claim predict its size and its first event's availability |
| OutboxWorker.Worker.ProcessBatch | internal/outbox/worker.go:91-146 | claims, publishes and marks in order; an event ends published if and only if the broker delivered it, and otherwise failed with the error's text and due in a minute; counts the events by how they ended, and stops at an error without text |
| OutboxWorker.Worker.PublishClaimed | internal/outbox/worker.go:117-141 | each claimed event ends as the broker's answer to its row says, up to the first that cannot be recorded, and the counts are the numbers of published and failed events |
| OutboxWorker.CountsAreStatuses | internal/outbox/worker.go:117-141 | the counts are the numbers of events that ended published and failed |
| OutboxWorker.Worker.constructor | internal/outbox/worker.go:50-89 | an empty worker name or batch size is replaced by its default |
| OutboxWorker.BatchAccounting | internal/outbox/worker.go:91-146 | the min(size, ready) first deliverable events end published exactly if delivered, or else failed with the error's text and a retry a minute later; all others are untouched |
| OutboxWorker.BatchShrinks | internal/outbox/worker.go:119-126 | a batch takes its events out of the backlog whatever the broker answers |
| OutboxWorker.CeilBatchesDrain | internal/outbox/worker.go:91-146 | the backlog is empty after exactly ceil(n / size) batches, and not before |
| OutboxWorker.DrainedIsPublished | internal/outbox/worker.go:135-141 | with a publisher that always succeeds, what left the backlog is published |
| BatchHistory.BatchIsHistory | internal/outbox/worker.go:91-146 | a worker's batch is a claim step followed by a publish and a mark of each event in the interleaved system: same table, same claims, one delivery for each event that ends published; so every promise of the interleaved system holds of the worker |
| OutboxRuns.AtMostOncePublish | internal/outbox/worker.go:102-141 | over every interleaving and crash: at most one successful publish per event, published means exactly one, attempts equal claims, live workers hold disjoint events |
| OutboxRuns.MarkSucceeds | internal/outbox/event.go:117-156 | a live worker can always record the answer, unless it is an error without text |
| OutboxRuns.FrozenForever | internal/outbox/adapters/memory/repository.go:58-60 | published rows, and rows left in progress by a dead worker, never change again |
| OutboxRuns.DeliverableExactly | internal/outbox/adapters/memory/repository.go:52-65 | an undelivered event no live worker holds can be delivered by some continuation if and only if it is pending or failed |
| OutboxRuns.CrashLosesEvent | internal/outbox/adapters/memory/repository.go:58-60 | the concrete history in which a crash after the claim makes delivery impossible |
| OutboxRuns.OrderNotKept | internal/outbox/worker.go:119-126 | of any two events the earlier created may be delivered later, after a retry that waits a minute |
| OutboxRuns.AnnouncedOnce | internal/outbox/worker.go:102-141 | over ledger and workers together, each payment's authorization, exit and settlement are each delivered at most once |
| Idempotency.RecordStore.CreateRecord | internal/idempotency/adapters/memory/repository.go:21-36 | insert if absent |
| Idempotency.RecordStore.GetRecord | internal/idempotency/adapters/memory/repository.go:38-52 | returns the stored record or reports it missing |
| Idempotency.RecordStore.UpdateRecord | internal/idempotency/adapters/memory/repository.go:54-69 | overwrites an existing record only |
| Idempotency.ResponseCache.GetResponse | internal/idempotency/adapters/redis/cache.go:60-80 | a reachable cache answers with the entry under the key and hash, if it still has one |
| Idempotency.ResponseCache.SetResponse | internal/idempotency/adapters/redis/cache.go:82-100 | a reachable cache stores the response under its key and hash |
| Idempotency.Service.constructor | internal/idempotency/service.go:54-70 | a time to live that is not positive becomes a day |
| Idempotency.Service.StartRequest | internal/idempotency/service.go:72-142 | grants the key until its expiry, refuses, or replays, in the code's order of checks, each case by the fields of the key's record; with colon-free hashes the result is that of having no cache |
| Idempotency.StartExactly | internal/idempotency/service.go:72-142 | every answer, case by case, from the key's record: its expiry, its hash, its status, its response; and the record a grant leaves |
| Idempotency.Service.CompleteRequest | internal/idempotency/service.go:144-175 | completes a record in progress once, and keeps the cache a mirror of completed records |
| Idempotency.RetryReplays | internal/idempotency/service.go:94-141 | after completion every request under the key gets the owner's response, a hash mismatch or, past the grant plus the time to live, an expiry error, and says which |
| Idempotency.CacheTransparent | internal/idempotency/service.go:118-141 | a mirroring cache never changes an answer |
| Idempotency.ResponseCache.Lose | internal/idempotency/adapters/redis/cache.go:60-80 | losing any entries at any moment keeps the mirror |
| Idempotency.CacheKeyClash | internal/idempotency/adapters/redis/cache.go:102-104 | cache keys with hashes of different length collide exactly when one key extends the other |
| Idempotency.CacheKeyInjective | internal/idempotency/adapters/redis/cache.go:102-104 | with colon-free hashes, or hashes of one length, no two collide |
| Idempotency.CacheKeysCollide | internal/idempotency/adapters/redis/cache.go:102-104 | a concrete collision without that condition |
| Idempotency.PreimageInjective | internal/idempotency/record.go:88-98 | with one-line methods and paths, different requests have different preimages |
| IdempotencyRuns.ExecutedOnce | internal/idempotency/service.go:85-97 | over every interleaving of requests, refusals, completions, crashes and cache losses, a key is granted at most once, and its transaction is run and its record completed at most once each, the one with or without the other |
| IdempotencyRuns.LedgerUnderneath | internal/payment/handler.go:99-124 | the ledger is that of one action per key's one execution and per keyless call; refusals, replays and everything else leave it alone |
| IdempotencyRuns.ReplaysFaithful | internal/idempotency/service.go:103-141 | every replay is the stored response, before expiry, to a request of the same digest, hence the same request when the digest separates them |
| IdempotencyRuns.FixedForever | internal/idempotency/record.go:71-82 | a completed record, or one whose owner crashed, never changes again |
| IdempotencyAnswers.AnswerableExactly | internal/idempotency/service.go:99-141 | a granted key can still be completed if and only if it is completed or a live handler owns it, and replayed to a request if and only if, besides, the request has the key's hash and comes before its expiry |
| IdempotencyAnswers.GrantKept | internal/idempotency/record.go:43-69 | a granted key expires its time to live after the grant, a day if that is not positive, in every continuation |
| IdempotencyAnswers.CrashSilencesKey | internal/payment/handler.go:94-124 | the concrete history in which a crash after the transaction leaves the key in progress, never completed and never replayed |
| IdempotencyAnswers.ReplayRendersExecution | internal/payment/handler.go:106-124 | if the key's transaction was run, every replay is the rendering of the outcome of that one execution, at its place in the ledger's history |
| IdempotencyAnswers.OutcomeIsEffect | internal/payment/service.go:187-413 | what an execution did to the database is what its outcome says |
| Handler.PaymentHandler.Enter | internal/payment/handler.go:90-106 | an unreadable body, a missing key, an empty, different or expired key's record, a key in progress and a completed one each turn the request away with its own reply and change nothing; otherwise the request holds its key's new record, or no key if none are in use |
| Handler.PaymentHandler.Finish | internal/payment/handler.go:213-224 | the reply is stored in the key's record, whatever the cache does, and no other record changes |
| Handler.PaymentHandler.HandleCapture | internal/payment/handler.go:132-181 | the capture of the payment the path names runs only if the request may run, and its reply is recorded under its key; every other request gets the reply its case calls for, a replay the stored one, and leaves ledger and records alone |
| Handler.PaymentHandler.HandleAuthorize | internal/payment/handler.go:78-130 | the same for an authorization, with an undecodable body answered and recorded without a transaction |
| Handler.CaptureTwice | internal/payment/handler.go:183-211 | the same capture request repeated before its key expires gets the first reply and leaves ledger and records as the first left them |
| Handler.AuthorizeTwice | internal/payment/handler.go:183-211 | the same authorization request repeated before its key expires gets the first reply and sets nothing aside again |
| Handler.SamePayment | internal/payment/handler.go:141-196 | requests whose digests agree, and are separated whenever their preimages differ, name the same payment and the same authorization |
| RateLimit.Limiter.Allow | internal/ratelimit/adapters/redis/limiter.go:60-99 | each key counts under its own name, the empty one as anonymous, and no other counter changes; a failed write makes the limiter unavailable; otherwise it counts within a live window, reports what remains, and when refusing names the instant the window ends, or a whole window if that cannot be read |
| RateLimit.OwnCounter | internal/ratelimit/adapters/redis/limiter.go:60-77 | what a key is allowed does not depend on the requests of other keys |
| RateLimit.WindowExact | internal/ratelimit/adapters/redis/limiter.go:68-88 | an opened window allows exactly its first `limit` increments |
| RateLimit.WithoutExpiry | internal/ratelimit/adapters/redis/limiter.go:73-77 | a window whose expiry could not be set never closes: of all later requests of the key only limit - 1 are ever allowed |
| RateLimit.RateBound | internal/ratelimit/adapters/redis/limiter.go:60-99 | any half-open interval of at most one window allows at most 2 * limit - 1 requests of a key, whichever writes fail |
| RateLimit.BoundReached | internal/ratelimit/adapters/redis/limiter.go:60-99 | for every limit, and every window of at least two ticks, a trace that reaches the bound |

## Where code and documentation disagree

- docs/failure-modes.md:152 and docs/architecture-tradeoffs.md:211 promise that events claimed by a crashed
  outbox worker are retried. The claim query takes only pending and failed events, so they are not:
  `OutboxRuns.CrashLosesEvent` is the counterexample and `OutboxRuns.DeliverableExactly` the exact condition.
- docs/settlement.md:189-198, docs/failure-modes.md:156 and docs/architecture-tradeoffs.md:241 describe workers that
  crash in the middle of a batch and leave it processing. A batch is inserted, claimed, settled and completed in
  one transaction (internal/settlement/service.go:138-205), so a crash leaves no batch at all, and
  `Coverage.RecoveryIdle` shows that recovery then never has anything to do. `Machine.InterruptedSettle` is the
  hypothetical action under which the recovery code does have work, and all invariants are proved with it as well.
- docs/failure-modes.md:136 and docs/architecture-tradeoffs.md:153 promise that payer versions prevent lost updates
  under concurrent captures. They do not when a capture's payment or hold changes before its payer is read:
  `TornReads.TornExists` is the counterexample, `TornReads.SerializableExactly` and
  `TornForever.SerializableSomehow` are the exact conditions.

## Left out

- HTTP routing, JSON encoding, error-code tables, metrics, logging, configuration and migrations; replies are
  rendered by functions the handler is given.
- Kafka, Redis and Postgres clients: publishing is an arbitrary answer, the cache a map that may lose entries
  or be unreachable, SQL statements are operations on maps. Connection and commit failures are not modelled.
- Trimming, currency normalisation and conversion to UTC: values are already normal. A caller's context is
  never cancelled.
- Random ids and their generator's errors: ids are parameters, and freshness is assumed only where stated.
- SHA-256: a digest is any function to colon-free strings; that it separates two requests is a hypothesis
  about those two requests only.
- Merchants: an immutable map of statuses. Payment statuses PENDING and FAILED, and idempotency status FAILED,
  are never produced by the code.
- Wrap-around of the payer version and of window durations; amounts and balances are 64-bit with explicit wrap.
- Concurrency.Serializable: assumes that no torn capture commits. The code does not guarantee it, since a capture reads
  its payment, hold and payer one after the other without a lock (internal/payment/service.go:319-332);
  `TornReads.TornExists` is a history that breaks it, `TornReads.SerializableExactly` the exact condition. Expiry and
  settlement are atomic steps of the interleaved model.
- CrashRecovery.CrashThenRecover: starts from a state the code never commits, with whole payments settled; stops between
  a payment row and its line item are not considered.
- Coverage.SlotSettledOnce: settlements are sequential, a run that skips rows locked by another does not count as sufficient,
  and captures commit in the order of their stamps; `Coverage.LateCaptureLost` is what happens where one does not.
- SettlementService.Service.ClaimCapturedPayments: the order in which the database returns claimed rows is not specified;
  the specification functions accept any order and, for interleaved use, any subset.
- Ranking.Sort: the library's sort is modelled by an insertion sort; only its result matters.
- IdempotencyRuns.ExecutedOnce: completing a record reads and writes it in one step, which only its owner does, and a key's
  transaction is one atomic step. That a retry succeeds after a crash between the ledger's commit and the completion is
  not claimed: `IdempotencyAnswers.CrashSilencesKey` is the history in which none does, and
  `IdempotencyAnswers.AnswerableExactly` the exact condition.
- Publication in order of creation is not claimed: `OutboxRuns.OrderNotKept` is the history.
- RateLimit.Limiter.Allow: the increment and the expiry are one step, a write reported as failed did not happen, and Redis
  rounding of the remaining time is ignored.
- Byte slices are values, so the copying the stores do against aliasing has no counterpart.
