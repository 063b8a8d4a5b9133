# Verified model of the wallet ledger

The repository moves money between wallets. A request creates a transfer and an outbox row in one
transaction; a worker publishes the row; a consumer writes the debit/credit pair, sets the status and
publishes the completion; failures walk three delay queues into a dead-letter queue, from where an
operator may replay them. Balances are never stored: they are sums over an append-only journal, and
funds are reserved by the status of transfers whose pair is not written yet. This project models that
protocol as one state machine, proves what holds over all its runs, and ties the services, written as
classes that update their state in place, to the machine. Five smaller parts stand beside it:
money arithmetic, the streamed CSV exports, refresh-token families, the rate limiter and the balance
cache.

## How it is laid out

| file | content |
|---|---|
| `Options.dfy`, `Sums.dfy` | missing values, finite sums |
| `Money.dfy` | 40-digit decimals, conversion, smallest units |
| `LedgerDb.dfy` | tables, queries, every committed database step, the invariant of the tables |
| `Settlement.dfy` | the whole machine: database, worker, messages and where they are, replays, faults |
| `Solvency.dfy`, `DoubleEntry.dfy` | the accounts of one database: what a wallet owes, what the journal says |
| `Guarantees.dfy` | the main results over all runs |
| `Tracking.dfy`, `NoOverdraft.dfy`, `NoLoss.dfy` | following one transfer through rows, queues and handlers |
| `Promises.dfy`, `Funding.dfy`, `KeyLocks.dfy`, `CoveredReplays.dfy` | when balances cover what is promised: the exact conditions for a step and for a run, the journal's foreign key, replays that ask for funds |
| `Creations.dfy` | the statements of a creation, together and abandoned |
| `StepFacts.dfy`, `Fates.dfy`, `Burial.dfy`, `SecondCopies.dfy` | single steps, whole lives of a message, what a second message of a transfer does |
| `Scenarios.dfy`, `Witnesses.dfy` | runs that show where a guarantee ends, and one that shows a proviso can be met |
| `RetryQueue.dfy`, `SettlementRetries.dfy`, `NotificationConsumer.dfy`, `WebhookFates.dfy` | the retry discipline, its two instances, whole runs of the webhook consumer |
| `Store.dfy`, `TransferService.dfy`, `TransferInitiatedConsumer.dfy`, `OutboxWorker.dfy`, `DlqService.dfy` | the services as written, each method tied to machine steps |
| `Csv.dfy`, `TransferExport.dfy` | printer, reader, cursor pages, the streaming loop |
| `TokenFamilies.dfy`, `TokenLifetimes.dfy`, `Sessions.dfy`, `TokenRaces.dfy`, `AuthService.dfy` | refresh tokens: families, lifetimes, owners, races |
| `RateLimit.dfy` | the sliding-window script |
| `BalanceCache.dfy`, `CacheFreshness.dfy`, `CacheWitness.dfy`, `WalletService.dfy` | cached balances beside the machine: what is served, when it is current, one that never was |

## How to read the machine

A step that is refused, or whose row or message is not there, changes nothing; so every sequence of
steps is a run, and a statement about `Exec(steps)` is a statement about every interleaving. A token is
one message together with the place where it is; queues are bags. Fault steps let the broker redeliver a
message whose handler still runs, a second process publish a row again, a handler die before or after its
ack, the worker die between publishing and marking, and a replay die half way. `createWithOutbox` exists
twice: as one snapshot step (`Create`) and statement by statement under the wallet lock (`Begin`, three
reads, `Commit`), with settlement free to interleave; `KeyLocks` adds that pairs wait for the lock.

## Where the code and its documentation part

- README.md line 209 says "No overdraft possible", by `FOR UPDATE` and a check inside the transaction. Funds are
  compared only when a transfer is created, so a step overdraws exactly when it writes an unfunded pair
  (`Fates.StepOverdrawsIffPairIsUnfunded`). Over every run, balances cover open promises at every point if and
  only if every commit of a divided creation and every pair of a transfer that had been given up found its amount
  free (`Funding.RunsKeepIffPaidFor`). Neither need be so; `Guarantees.SolvencyBound` bounds every overdraft.
  - A given-up transfer is posted by whatever leaves a second settlement message of it: an operator's replay
    (`Witnesses.ReplaysOverdraw`), a redelivery, a second publisher, or no more than the republication after the
    worker died between publishing and marking (`Witnesses.RepublicationOverdraws`). A replay is safe if its
    amount is free when it re-arms, for which the check of a creation is enough, and nothing else can post the
    transfer when it sends (`CoveredReplays.CoveredReplaysNeverOverdraw`, and `Witnesses.CoveredReplaysHappen`).
  - The check reads three sums in three statements: a pair written between them lets the same funds be spent
    twice without any fault (`Witnesses.SplitReadsOverdraw`). The wallet's lock alone does not exclude that. What
    does is the foreign key of the journal: inserting a row waits for the wallet that a creation holds
    (`KeyLocks.KeyLockedRunsMissNothing`), which leaves the pairs of transfers given up as the exact condition
    (`KeyLocks.KeyLockedRunsKeepIffPairsAreFunded`).
- A balance is two aggregates, awaited together outside any transaction, so settlement may post between them. The
  balance answered, and then cached, may be one that the wallet never had, below zero included
  (`CacheWitness.ServedBalanceMayNeverHaveBeen`); `BalanceCache.ServedWasABalanceIff` says exactly when it was one.
- A refresh finds its token in one statement and rotates it in another that does not ask whether the token is still
  live. Two refreshes that both find before either rotates are both accepted, and the family forks
  (`TokenRaces.InterleavedRefreshesFork`). Rotating on condition that the row is live restores one chain per
  family (`TokenRaces.GuardedRunsKeepChains`).
- The consumer has a branch for a unique violation that acks a duplicate as an idempotent retry. The ledger
  service turns every error into an internal one first, so the branch is dead: a second message of a posted transfer
  walks the retries and ends FAILED and dead-lettered (`Fates.HealthyHandlingCompletesIffUnposted`). A redelivery, a
  crash between pair and ack and a second publication each leave such a message (`SecondCopies`). FAILED does not
  mean unposted, COMPLETED is not final.
- README.md line 265 says an interrupted row is published again. That holds when the process dies; a row
  whose publication throws is marked FAILED and is left alone for good (`NoLoss.MarkedRowsAreLeftAlone`).
- A `transfer.completed` message whose handling fails goes to the delay queues of settlement, which expire into
  `transfer.initiated`; so one failure of the completion's consumer ends a completed transfer FAILED
  (`SecondCopies.FailedConfirmationsFailTransfers`).
- The sliding expiry of a refresh token is stored and never read; only the absolute one is.

## Model

| member | source | states |
|---|---|---|
| LedgerDb.PairFitsIffUnposted | api/prisma/schema.prisma:121-135 | the unique index over transfer, wallet and type refuses a pair exactly when its transfer is already posted |
| LedgerDb.StepIsSound | api/src/modules/ledger/ledger.repository.ts:18-52 | every committed step keeps: no rows or exactly the prescribed pair per transfer, wallets and transfers of one tenant and currency, COMPLETED only if posted |
| LedgerDb.PairMovesBalances | api/src/modules/ledger/ledger.repository.ts:72-90 | a posting raises the credits of one wallet and the debits of another by the transfer's amounts and nothing else, in every tenant scope |
| Settlement.RunKeepsInv | api/src/modules/ledger/consumers/transfer-initiated.consumer.ts:72-260 | over every run with every fault, messages, outbox rows and dead letters copy their transfer row, retry counts match delay queues, and the tables stay sound |
| Guarantees.SolvencyBound | api/src/modules/transfer/transfer.repository.ts:29-120 | balance plus amounts ever released plus missed debits covers all unposted transfers; so an overdraft is at most what was released and then posted, plus those debits |
| Guarantees.SnapshotsMissNothing | api/src/modules/transfer/transfer.repository.ts:35-60 | with the transaction body as one snapshot the missed debits are zero in every run |
| Guarantees.SplitReadsOverestimateByMissedDebits | api/src/modules/transfer/transfer.repository.ts:32-60 | with the three reads as separate statements, at commit the computed availability exceeds balance less open promises by at most the debits posted since the debit read |
| Creations.UndisturbedCreationIsSnapshot | api/src/modules/transfer/transfer.repository.ts:29-101 | if nothing interleaves, the five statements of a creation, whichever sum is read first, are its snapshot: both rows if the funds are there, no trace once rolled back if not, and no lock |
| Creations.AbandonedCreationLeavesNoTrace | api/src/modules/transfer/transfer.repository.ts:29-62 | a creation rolled back after any of its reads leaves every table and lock as it found them |
| Creations.StatusMovesReservation | api/src/modules/transfer/transfer.repository.ts:107-120 | a change of status moves a wallet's reservation by the transfer's amount exactly if it enters or leaves INITIATED or PROCESSING, and its wallet and tenant are asked for |
| Guarantees.ReservationsAreOwedUpToLag | api/src/modules/transfer/transfer.repository.ts:107-120 | in every reachable state the reservation is what is owed, plus the transfers posted but not stamped, less those given up |
| Guarantees.RefusedIffNotPayable | api/src/modules/transfer/transfer.repository.ts:41-60 | a transfer passes the check of funds if and only if the balance less what is owed, less what lags, plus what was given up covers it; with nothing lagging or given up, exactly if it can be paid with all others |
| Guarantees.PostedAtMostOnce | api/src/modules/ledger/ledger.repository.ts:18-52 | in every reachable state a transfer has no journal rows, or one debit and one credit with the wallets, amounts, currencies and tenant of its row |
| Guarantees.CompletedMeansPosted | api/src/modules/ledger/consumers/transfer-initiated.consumer.ts:104-145 | status COMPLETED, or any message or persisted dead letter that reports it, wherever it is (its own queue, fallen over into settlement's, replayed), implies both rows exist |
| Guarantees.BalancesDependOnPostingsOnly | api/src/modules/ledger/ledger.repository.ts:72-90 | two runs with the same transfers and the same ones posted, in any order, agree on the journal as a bag and on every balance |
| DoubleEntry.BalanceIsPostedInflow | api/src/modules/ledger/ledger.repository.ts:72-90 | a derived balance is the inflow less the outflow of the posted transfers |
| DoubleEntry.JournalIsPostedPairs | api/src/modules/ledger/ledger.repository.ts:18-52 | any additive figure of the journal is a sum over the posted transfers' pairs alone |
| Guarantees.CurrencyNetsToExchanges | api/prisma/seed-journal-entries.ts:25-69 | per currency, all credits less all debits equal what exchanges issued; zero for a currency that no posted transfer exchanges |
| Guarantees.TenantFilterIsTransparent | api/src/common/repositories/base.repository.ts:62-73 | for every non-system wallet the tenant filter changes neither balance nor reservation, and each entry of the wallet has its tenant and currency |
| Promises.StepKeepsIffFunded | api/src/modules/transfer/transfer.repository.ts:29-120 | a legal database step leaves balance at or above open promises if and only if, should it commit a divided creation or write the pair of a withdrawn transfer out of the wallet, the amount is free |
| Promises.WithdrawnPairKeepsIffFunded | api/src/modules/ledger/consumers/transfer-initiated.consumer.ts:100-119 | a pair that posts a withdrawn transfer leaves promises covered if and only if balance less open promises covers its amount when it is written |
| Promises.CommitKeepsIffFunded | api/src/modules/transfer/transfer.repository.ts:54-77 | a commit leaves its wallet's promises covered if and only if balance less open promises covered the amount at that moment, whatever its reads said |
| NoOverdraft.CalmRunsNeverOverdraw | api/src/modules/ledger/consumers/transfer-initiated.consumer.ts:188-260 | without redelivery, duplicate publication, replay or a lost mark, a released transfer never posts; balances cover open promises up to the debits missed by divided reads, and outright, so never negative, if every commit was funded |
| Funding.RunsKeepIffPaidFor | api/src/modules/transfer/transfer.repository.ts:29-120 | the exact condition over every run, with duplicates, replays, crashes and divided creations: balance covers open promises at every point if and only if every commit and every pair of a transfer given up found its amount free |
| NoOverdraft.CalmRunsKeepIffCommitsAreFunded | api/src/modules/transfer/transfer.repository.ts:29-77 | in a calm run no transfer given up is paid, so the condition is that every commit found its amount free |
| Witnesses.RepublicationOverdraws | api/src/modules/outbox/outbox.worker.ts:65-109 | for every amount, a run without replay, redelivery, second publisher or divided creation, and with no dead letter persisted, ends at minus the amount: the worker died between publish and mark |
| Witnesses.SplitReadsOverdraw | api/src/modules/transfer/transfer.repository.ts:41-60 | for every amount, a run with no fault, duplicate or replay ends at minus the amount, if a pair may be written between the three reads |
| KeyLocks.KeyLockedRunsMissNothing | api/prisma/migrations/20260321084352_init/migration.sql:167-168 | if pairs wait for a wallet that a creation holds, as the foreign key makes them, then in every run the missed debits are zero and every commit is funded |
| KeyLocks.KeyLockedCalmRunsNeverOverdraw | api/src/modules/transfer/transfer.repository.ts:29-60 | so with three separate reads, too, calm runs keep every balance at or above its open promises, hence at or above zero |
| KeyLocks.KeyLockedRunsKeepIffPairsAreFunded | api/prisma/migrations/20260321084352_init/migration.sql:167-168 | and any run whose pairs wait keeps balances at or above open promises if and only if every pair of a transfer given up found its amount free |
| Fates.StepOverdrawsIffPairIsUnfunded | api/src/modules/ledger/consumers/transfer-initiated.consumer.ts:100-119 | a step takes a balance below zero if and only if it writes the pair of an unposted transfer that takes more than the wallet has |
| Promises.RearmKeepsIffAffordable | api/src/modules/outbox/dlq.service.ts:86-98 | re-arming a withdrawn transfer leaves the promises of its wallet covered, it included, if and only if its amount is free; other wallets are untouched |
| Promises.CreationCheckSuffices | api/src/modules/outbox/dlq.service.ts:86-98 | the check that a creation makes would be enough to re-arm safely |
| CoveredReplays.CoveredReplaysNeverOverdraw | api/src/modules/outbox/dlq.service.ts:79-109 | in runs calm but for replays whose amount is free when re-armed and that nothing else can post when sent, balances cover all promises, re-armed ones included, and are never negative |
| Witnesses.CoveredReplaysHappen | api/src/modules/outbox/dlq.service.ts:79-109 | such runs exist with a replay that takes effect: a dead letter whose funds are still there |
| Witnesses.ReplaysOverdraw | api/src/modules/outbox/dlq.service.ts:86-109 | for every amount a run from the empty system ends with a balance of minus that amount: a dead letter, its funds spent again, its replay |
| Burial.UnsuccessfulMessagesAreBuried | api/src/modules/ledger/consumers/transfer-initiated.consumer.ts:176-260 | in any run, however interleaved, in which no handling of a message succeeds and none dies after its ack, it fails at most its remaining retries plus one times; when it is done with, exactly so often, its dead letter and failed event are out and its transfer has been set FAILED |
| Fates.FirstDeliveryCompletes | api/src/modules/ledger/consumers/transfer-initiated.consumer.ts:100-147 | an undisturbed first delivery appends the pair, sets COMPLETED, and leaves one message that reports COMPLETED with retry count zero |
| Fates.HealthyHandlingCompletesIffUnposted | api/src/modules/ledger/consumers/transfer-initiated.consumer.ts:100-217 | with no failing statement, handling ends COMPLETED if and only if the transfer was unposted; otherwise it ends FAILED with the journal unchanged |
| SecondCopies.RedeliveredTransfersEndFailed | api/src/modules/ledger/consumers/transfer-initiated.consumer.ts:100-217 | redelivered while its handler runs, a message first completes its transfer and then, handled again to its end, takes it to FAILED though the pair is in the journal |
| SecondCopies.CrashAfterPairEndsFailed | api/src/modules/ledger/consumers/transfer-initiated.consumer.ts:100-217 | so does a handler that dies between the pair and its ack |
| SecondCopies.RepublishedTransfersEndFailed | api/src/modules/outbox/outbox.worker.ts:81-109 | and a second publication of the row of a posted transfer |
| SecondCopies.FailedConfirmationsFailTransfers | api/src/modules/transfer/consumers/transfer-completed.consumer.ts:126-176 | a completion whose consumer fails once expires into settlement and ends its posted transfer FAILED and dead-lettered |
| Fates.ReplayInjects | api/src/modules/outbox/dlq.service.ts:79-109 | a replay re-arms INITIATED and puts one message of the event's payload, tenant and status, with retry count zero, into the work queue, whatever the wallet holds |
| NoLoss.NothingIsLost | api/src/modules/ledger/consumers/transfer-initiated.consumer.ts:176-217 | unless a handler dies between ack and republication, every unposted transfer is held by a PENDING or FAILED row, a message or a dead letter |
| NoLoss.StepForgetsIff | api/src/modules/ledger/consumers/transfer-initiated.consumer.ts:176-183 | a step makes the system forget an unposted transfer if and only if it is the death of a handler between ack and republication, of the last thing that held it |
| Witnesses.TransfersAreLost | api/src/modules/ledger/consumers/transfer-initiated.consumer.ts:176-183 | a run of one error and one such death ends with a transfer INITIATED, unposted and held by no row, message or dead letter |
| NoLoss.RowsArePublishedAtMostOnce | api/src/modules/outbox/outbox.worker.ts:65-119 | over any run whose published rows also get a mark, each row is published at most once, however flushes overlap |
| NoLoss.MarkedRowsAreLeftAlone | api/src/modules/outbox/outbox.repository.ts:12-32 | a row once PUBLISHED or FAILED keeps its mark in every continuation and is never at the head of a batch again |
| Tracking.BatchIsOldest | api/src/modules/outbox/outbox.repository.ts:12-18 | a batch holds only pending rows with fewer than three retries, at most fifty; a pending row is left out only if the batch is full of older ones |
| RetryQueue.StepSpends | api/src/modules/notification/notification.consumer.ts:135-171 | for any limit, a failed handling lowers the sum of remaining attempts by exactly one and only putting a message into circulation raises it, by at most limit + 1 |
| RetryQueue.FailuresAreBounded | api/src/modules/outbox/dlq.config.ts:6-34 | for any limit and any run, with messages that come in with any retry count, every delay-queue index is in range and failed handlings are at most (limit + 1) times the messages put into circulation |
| SettlementRetries.SettlementRefinesRetryQueue | api/src/modules/ledger/consumers/transfer-initiated.consumer.ts:188-218 | seen through places and retry counts, each settlement step is a move and an addition of the retry discipline with limit three |
| SettlementRetries.StepSpends | api/src/modules/ledger/consumers/transfer-initiated.consumer.ts:195-217 | each failed handling of the settlement machine uses up exactly one attempt |
| SettlementRetries.SettlementFailuresAreBounded | api/src/modules/ledger/consumers/transfer-initiated.consumer.ts:195-217 | over every run, failed handlings are at most four times the messages published, replayed, redelivered or fallen over from transfer.completed |
| Store.Store.WriteEntryPair | api/src/modules/ledger/ledger.repository.ts:18-52 | both rows or neither; an error exactly when the unique index clashes, the connection fails, or it fails after the commit, and then both rows are there |
| Store.Store.UpdateStatus | api/src/modules/ledger/consumers/transfer-initiated.consumer.ts:114-117 | sets the status of one row; an error if there is no such row |
| Store.Store.CreateWithOutbox | api/src/modules/transfer/transfer.repository.ts:29-101 | appends an INITIATED transfer and its PENDING outbox row exactly when balance less reservations covers the amount, both amounts fit 64 bits and the idempotency key is free; funds are compared first |
| Store.Store.MarkPublished | api/src/modules/outbox/outbox.repository.ts:12-25 | the row leaves the list of waiting rows, which keeps all others in their order |
| Store.Store.MarkFailed | api/src/modules/outbox/outbox.repository.ts:12-32 | so does a row that failed, however few its retries |
| Tracking.MarkedRowStopsWaiting | api/src/modules/outbox/outbox.repository.ts:12-32 | whatever mark a row gets, the rows waiting are those before without it |
| TransferInitiatedConsumer.DeliveryEnds | api/src/modules/ledger/consumers/transfer-initiated.consumer.ts:72-260 | for every message and every combination of failing calls, field by field: rows in the journal unless the pair is refused or fails before its commit; COMPLETED and the completion with retry count zero if nothing fails; below three retries the next delay queue with the count raised; from three on the dead letter, FAILED and the failed event unless that update fails; nothing else moves |
| TransferInitiatedConsumer.DeliveryCompletesIff | api/src/modules/ledger/consumers/transfer-initiated.consumer.ts:100-147 | a delivery ends COMPLETED, acked and with its completion published if and only if the pair fits and no call fails |
| TransferInitiatedConsumer.TransferInitiatedConsumer.WriteJournalEntries | api/src/modules/ledger/ledger.service.ts:27-45 | success appends the two rows; every failure, a unique violation and an error after the commit too, surfaces as an internal error |
| TransferInitiatedConsumer.TransferInitiatedConsumer.TryToSettle | api/src/modules/ledger/consumers/transfer-initiated.consumer.ts:100-176 | rows, status and queues after the guarded part for each fault, field by field, and the same as machine steps; never a unique violation; on error the message is acked |
| TransferInitiatedConsumer.TransferInitiatedConsumer.Complete | api/src/modules/ledger/consumers/transfer-initiated.consumer.ts:114-147 | COMPLETED unless the update fails; then, unless a cache delete fails, the message is gone and the completion with retry count zero is published; otherwise it is acked |
| TransferInitiatedConsumer.TransferInitiatedConsumer.ScheduleRetryOrDlq | api/src/modules/ledger/consumers/transfer-initiated.consumer.ts:188-218 | below three retries the next delay queue with the count raised, otherwise the dead letter and then the terminal status |
| TransferInitiatedConsumer.TransferInitiatedConsumer.MarkTransferFailed | api/src/modules/ledger/consumers/transfer-initiated.consumer.ts:226-260 | FAILED and the failed event, or nothing when the update fails |
| TransferInitiatedConsumer.TransferInitiatedConsumer.HandleMessage | api/src/modules/ledger/consumers/transfer-initiated.consumer.ts:72-186 | one delivery leaves journal, statuses and queues as `DeliveryEnds` says, for any combination of failing calls, and is one run of machine steps |
| OutboxWorker.OutboxWorker.PublishAndMark | api/src/modules/outbox/outbox.worker.ts:86-109 | one fresh message of the row's payload unless the publication throws; PUBLISHED exactly if nothing fails |
| OutboxWorker.OutboxWorker.PublishRow | api/src/modules/outbox/outbox.worker.ts:81-119 | besides, a row whose publication or mark failed is FAILED with one retry more; if that update fails too it is as it was and the flush ends |
| OutboxWorker.OutboxWorker.DrainBatch | api/src/modules/outbox/outbox.worker.ts:71-73 | the loop handles the rows in batch order, each once, up to the first that aborts; rows outside the batch and behind that one are as they were |
| OutboxWorker.OutboxWorker.Flush | api/src/modules/outbox/outbox.worker.ts:65-79 | returns untouched while another flush runs; otherwise, up to the first abort, a row of the batch ends PUBLISHED if and only if nothing fails for it and has one new message, in batch order, if and only if its publication did not throw; without faults all of them; as machine steps, and the flag is down again |
| DlqService.ReplayEffect | api/src/modules/outbox/dlq.service.ts:91-117 | the four replay steps together: INITIATED, one message of the event with retry count zero, the event stamped |
| DlqService.ReplayedMessagesFailFourTimes | api/src/modules/outbox/dlq.service.ts:79-109 | a replayed message none of whose handlings succeeds, in whatever run, fails at most four times, and exactly four when it is done with: dead-lettered again, its transfer set FAILED again |
| DlqService.StampedEventsAreDone | api/src/modules/outbox/dlq.service.ts:67-71 | once an event is stamped no replay of it begins in any continuation |
| DlqService.DyingReplaysSendNothing | api/src/modules/outbox/dlq.service.ts:91-109 | a replay that dies after re-arming leaves the transfer INITIATED and its amount reserved, sends nothing then or later, and another replay of the event can begin |
| DlqService.DlqService.ReplayEvent | api/src/modules/outbox/dlq.service.ts:59-120 | not found exactly if there is no such event or it is another tenant's, conflict exactly if it was replayed, both without a trace; otherwise INITIATED, one message with retry count zero, the stamp, as the four machine steps |
| TransferService.PricedOrdersAreSubmittable | api/src/modules/transfer/transfer.service.ts:33-90 | a priced order is between the two wallets asked for, different ones of the caller, in their own currencies, at the table's rate, with the converted amounts, equal ones between equal currencies |
| TransferService.PricedIffRepresentable | api/src/modules/transfer/transfer.service.ts:62-73 | a positive amount between two different wallets of the caller is priced if and only if its nearest number of smallest units and their exact value at the rate, rounded once, stay below 10^21; no other reason is left |
| TransferService.TransferService.CreateTransfer | api/src/modules/transfer/transfer.service.ts:33-104 | each refusal exactly where its check fails, in the order of the checks, and without a trace; otherwise the machine's Create of the priced order takes effect, both rows with it, and the key is the transfer's |
| NotificationConsumer.WebhookFailuresAreBounded | api/src/modules/notification/notification.consumer.ts:103-171 | over every run of arrivals with any retry count, expiries, handlings, redeliveries and deaths before or after the ack, webhook deliveries fail at most twice per message that arrived or was redelivered, and only the one delay queue is used |
| WebhookFates.DeliveriesAreBounded | api/src/modules/notification/notification.consumer.ts:103-133 | over every run, webhooks delivered and messages still to do are together at most the messages that arrived or were redelivered |
| WebhookFates.DeliveredMessagesAreDone | api/src/modules/notification/notification.consumer.ts:103-112 | a message whose webhook was delivered is never in the queue again, in any continuation of the run |
| NotificationConsumer.NotificationConsumer.HandleMessage | api/src/modules/notification/notification.consumer.ts:59-133 | every message is acked; it waits for a retry, its count one, if and only if the webhook fails at count zero, and is done with otherwise; dead letters are the malformed and the failed retries |
| NotificationConsumer.NotificationConsumer.ScheduleRetryOrDlq | api/src/modules/notification/notification.consumer.ts:135-171 | one retry, then the dead letter |
| Money.BoundedOperandsFit | api/src/common/utils/money.utils.ts:4-58 | amounts below 10^21 and rates of up to 18 digits have products of at most 40 digits |
| Money.ConversionRoundsOnce | api/src/common/utils/money.utils.ts:37-58 | whenever amount times rate has at most 40 digits the result is the exact rational rounded half up once; the only failure is a result too long to parse |
| Money.ConversionIsMonotone | api/src/common/utils/money.utils.ts:37-58 | a larger amount never converts to a smaller one |
| Money.ConversionIsNearlyAdditive | api/src/common/utils/money.utils.ts:37-58 | converting a sum and summing conversions differ by at most one unit |
| Money.ConversionAtOneIsIdentity | api/src/common/utils/money.utils.ts:37-58 | rate one, however many zeros follow, changes nothing between equal decimals |
| Money.LongRatesRoundTwice | api/src/common/utils/money.utils.ts:4-58 | 40 digits are the limit: a product of 41 whose intermediate rounding moves the result |
| Money.SmallestUnitRoundsOnce | api/src/common/utils/money.utils.ts:17-25 | an amount of up to 40 digits becomes the nearest number of smallest units, ties away from zero; the only failure is a number too long to parse |
| Money.WholeUnitsAreHundreds | api/src/common/utils/money.utils.ts:6-25 | a whole unit is a hundred smallest units in every currency but the yen, where it is one |
| Money.DocumentedConversions | api/src/common/utils/money.utils.ts:34-58 | the two examples that the source documents |
| Money.RefusedRates | api/src/common/utils/money.utils.ts:37-47 | a rate is refused exactly if it is no number, not finite or not positive; the only other failure is a result too long to parse |
| Money.SmallestUnitRoundTrip | api/src/common/utils/money.utils.ts:17-32 | display units and back is the identity |
| Csv.PrintedLines | api/src/common/utils/csv.utils.ts:8-20 | joined rows, with or without header, are the lines of the table, each ended |
| Csv.QuotesOnlyWhereNeeded | api/src/common/utils/csv.utils.ts:8-11 | a cell is printed with a leading quote if and only if it holds a comma, quote or newline, unchanged otherwise, and merely enclosed if it holds no quote |
| Csv.PrintedTablesReadBack | api/src/common/utils/csv.utils.ts:8-20 | a reader for RFC 4180 section 2 with LF line ends recovers the header and exactly the rows, whatever commas, quotes and newlines the cells hold |
| TransferExport.PagesContinue | api/src/modules/transfer/transfer.repository.ts:211-282 | a page is the next rows in order, full unless the table ends, and its cursor is there exactly when rows follow |
| TransferExport.WritePage | api/src/modules/transfer/transfer.service.ts:168-187 | one turn of the loop extends the output by the next page's rows |
| TransferExport.Stream | api/src/modules/transfer/transfer.service.ts:161-193 | for any page size the loop ends, and its output is the one-piece CSV plus a newline; interrupted before page k it holds the header and exactly k full pages and is not ended |
| TransferExport.StreamMyTransfersExport | api/src/modules/transfer/transfer.service.ts:153-200 | the loop with page size 500 in the user's columns and shape: the whole table if it ends, the first pages if not |
| TransferExport.StreamTenantTransfersExport | api/src/modules/transfer/transfer.service.ts:202-246 | the same in the tenant's columns and shape |
| TransferExport.ExportsReadBack | api/src/modules/transfer/transfer.service.ts:161-193 | whole or cut, what was written reads back as the header and the transfers written |
| TransferExport.OwnExportReadsBack | api/src/modules/transfer/transfer.repository.ts:258-275 | a user's export, whole or cut, reads back as the six titles and each transfer's date, direction, other account, amount, currency and status |
| TransferExport.TenantExportReadsBack | api/src/modules/transfer/transfer.repository.ts:329-340 | a tenant's export reads back as the seven titles and each transfer's date, accounts, amount and currency sent, status and identifier |
| TransferExport.AmountsReadBack | api/src/modules/transfer/transfer.repository.ts:258-275 | the printed amount spells the stored number of smallest units |
| TransferExport.OwnRowShowsOwnEntry | api/src/modules/transfer/transfer.repository.ts:258-275 | a user's row shows direction, amount and currency of the journal entry in the user's own wallet, the account at the other end, date and status |
| TransferExport.TenantRowShowsDebit | api/src/modules/transfer/transfer.repository.ts:329-340 | a tenant's row shows the debit's amount and currency, both accounts, date, status and the identifier |
| TokenFamilies.RunKeepsChains | api/src/modules/auth/auth.repository.ts:70-117 | in every reachable state each family is one chain linked by replacedByHash, of one user, tenant and absolute expiry, in which only the last token can be live |
| TokenFamilies.RotationExtends | api/src/modules/auth/auth.repository.ts:70-83 | a rotation revokes the last token, links it to the new one, and leaves other families alone |
| TokenFamilies.PurgeIsWhole | api/src/modules/auth/auth.repository.ts:113-117 | a purge deletes a family as a whole or leaves it as it is |
| TokenLifetimes.AtMostOneIsLive | api/src/modules/auth/auth.service.ts:105-170 | two live tokens of a family are the same token |
| TokenLifetimes.AcceptedIffLive | api/src/modules/auth/auth.service.ts:105-139 | in every reachable state a refresh is accepted if and only if the token is stored, live, not past its absolute expiry and its user exists |
| TokenLifetimes.RotationHandsOver | api/src/modules/auth/auth.service.ts:139-158 | after a refresh the new token is accepted until the old deadline and the old one counts as reused |
| TokenLifetimes.TokensAreAcceptedOnce | api/src/modules/auth/auth.service.ts:105-158 | with each refresh undivided, no token is accepted twice, whatever happens in between |
| TokenLifetimes.EndedFamiliesAreDead | api/src/modules/auth/auth.service.ts:115-205 | reuse, a refresh after expiry, logout of a live token and logout everywhere each revoke the whole family |
| TokenLifetimes.EndedFamiliesNeverReturn | api/src/modules/auth/auth.service.ts:115-191 | after that no token of the family is accepted or created in any continuation |
| Sessions.LogoutEverywhereEndsLogins | api/src/modules/auth/auth.service.ts:202-231 | after a login of a user, any operations, and the logout everywhere of that user, no token of the login is accepted or created in any continuation |
| Sessions.LogoutEverywhereSparesOthers | api/src/modules/auth/auth.repository.ts:103-111 | the logout everywhere of another user, or in another tenant, leaves every token of the login as it was |
| Sessions.OtherFamiliesAreSpared | api/src/modules/auth/auth.service.ts:105-208 | no operation but a purge changes a token of a family of which it presents none and logs nobody out |
| TokenLifetimes.LoginsDoNotOutliveTheirTtl | api/src/modules/auth/auth.service.ts:126-231 | no chain of refreshes is accepted past login time plus time to live |
| TokenRaces.InterleavedRefreshesFork | api/src/modules/auth/auth.service.ts:105-158 | two refreshes of an acceptable token that both find it before either rotates are both accepted and leave two live tokens in its family |
| TokenRaces.RotationKeepsChainsIff | api/src/modules/auth/auth.repository.ts:70-83 | a rotation, whatever ran since its find, keeps every family one chain if and only if the token found is still the newest of its family, or the family has been purged |
| TokenRaces.GuardedRunsKeepChains | api/src/modules/auth/auth.repository.ts:70-83 | were the rotation conditional on the row being live, and a late one counted as reuse, every family would be one chain in every state, however finds and rotations interleave |
| TokenRaces.GuardedTokensRotateOnce | api/src/modules/auth/auth.repository.ts:70-83 | and once a token has rotated under that condition, no row of it is live again in any continuation |
| AuthService.AuthService.IssueTokenPair | api/src/modules/auth/auth.service.ts:214-231 | one live token of this user and tenant in a new family, both expiries a time to live from now; the machine's Login |
| AuthService.AuthService.RefreshToken | api/src/modules/auth/auth.service.ts:105-175 | the machine's Refresh, reply and table, in all five outcomes, each with what it says of the stored token; an issued token is the presented one's user's, family's and absolute expiry's, and the presented one is spent |
| AuthService.AuthService.Logout | api/src/modules/auth/auth.service.ts:177-200 | the machine's Logout: nothing for an unknown or revoked token, otherwise the family |
| AuthService.AuthService.LogoutAll | api/src/modules/auth/auth.service.ts:202-208 | the machine's LogoutAll |
| AuthService.AuthRepository.DeleteExpiredRefreshTokens | api/src/modules/auth/auth.repository.ts:113-117 | the machine's Purge; of a table of chains each family goes or stays as a whole |
| RateLimit.NoBurst | api/src/common/guards/rate-limit.guard.ts:26-48 | a history admitted by the rule has at most `limit` admissions in any interval as long as the window |
| RateLimit.RequestsNeverBurst | api/src/common/guards/rate-limit.guard.ts:26-48 | so has every sequence of requests with nondecreasing times |
| RateLimit.KeptIsWindow | api/src/common/guards/rate-limit.guard.ts:32-35 | counting what is kept is counting the window of the full history, if all that was dropped is out of it |
| RateLimit.RetriesAreAdmitted | api/src/common/guards/rate-limit.guard.ts:110-114 | after the advertised whole seconds, with no admission in between, a request is admitted at any later time |
| RateLimit.HintIsExact | api/src/common/guards/rate-limit.guard.ts:35-42 | a full window admits nothing until its oldest admission has left it, and whatever comes first after that |
| RateLimit.SlidingWindow.Expire | api/src/common/guards/rate-limit.guard.ts:46-46 | the key's expiry drops admissions only after they left the window |
| RateLimit.SlidingWindow.Trim | api/src/common/guards/rate-limit.guard.ts:32-34 | after expiry and pruning the set holds exactly the window of the full history |
| RateLimit.SlidingWindow.Hint | api/src/common/guards/rate-limit.guard.ts:35-42 | retryAfter lies in (0, window]; with no admission in between, a retry is admitted exactly from then on |
| RateLimit.SlidingWindow.Evaluate | api/src/common/guards/rate-limit.guard.ts:26-48 | decides as the full history would, records exactly the admissions, and its hint is sound |
| BalanceCache.BalancesAreNeverOlder | api/src/modules/wallet/wallet.service.ts:118-147 | over every run, every balance returned is the credits of one state less the debits of another: on a hit neither further back than the time to live plus the longest fill, on a miss neither further than the fill |
| BalanceCache.ServedIsOffByLaterPostings | api/src/modules/wallet/wallet.service.ts:118-147 | over every run, divided fills and top-ups included, a balance returned is off by exactly the wallet's debits posted since its debit read less the credits posted since its credit read, so current if and only if they are equal |
| BalanceCache.IsBalanceIffUndisturbed | api/src/modules/ledger/ledger.repository.ts:72-90 | the difference of two reads is the balance of a state between them if and only if, credits read first, no credit was posted before that state and no debit after it; the other way round if debits were read first |
| BalanceCache.ServedWasABalanceIff | api/src/modules/wallet/wallet.service.ts:136-147 | over every run, a balance returned is one the journal gave in some state between its two reads if and only if there is such a state |
| CacheWitness.ServedBalanceMayNeverHaveBeen | api/src/modules/wallet/wallet.service.ts:136-147 | for every positive amount, a run with no fault or repetition, and creations undivided, serves minus the amount for a wallet that was never negative in any of its states |
| CacheFreshness.HitsAreCurrent | api/src/modules/wallet/wallet.service.ts:118-147 | with undivided fills and no top-up, a hit is the current balance whenever no handling of the wallet has written its pair and not deleted its key |
| CacheFreshness.DeletedKeysMiss | api/src/modules/ledger/consumers/transfer-initiated.consumer.ts:121-128 | the two deletes of a handling take out both wallets' balances and nothing else, so whoever asks next reads the journal |
| CacheFreshness.SplitFillsGoStale | api/src/modules/wallet/wallet.service.ts:138-140 | a fill that has read both sums before a pair write and stores after the delete leaves a balance too high by the amount |
| CacheFreshness.TopUpsGoStale | api/prisma/seed-journal-entries.ts:25-69 | a balance cached before a top-up stays, too low by the amount, with no key left to delete |
| WalletService.WalletService.GetBalance | api/src/modules/wallet/wallet.service.ts:118-147 | not found for a foreign wallet; otherwise the cached balance if it is at most a minute old, or the journal's, which is then cached |

## Assumed

- A `$transaction` and a single statement are atomic; `FOR UPDATE` is a lock per wallet; the rate-limit
  script runs undivided; the broker keeps messages and delivers them in any order.
- Top-ups come from the seed script. Dead-letter rows come from somewhere: `transfer-initiated.consumer.ts`
  publishes dead letters and does not persist them, so `Persist` may happen to any dead letter at any time.
- `KeyLocks` takes from the database that inserting a row with a foreign key to a wallet waits for a
  transaction that holds the wallet's row for update.
- `new Decimal(number)` and `toNumber` lose nothing; a FX rate is any decimal text; token hashes and row
  identifiers are never drawn twice.
- The rows of an export are one fixed ordered table while it streams. The query orders by creation time
  only, so ties and concurrent inserts are outside this statement.
- Each auth operation of `TokenFamilies`, `TokenLifetimes`, `Sessions` and `AuthService` runs undivided; `TokenRaces` divides the
  refresh.
- The two aggregates of a balance are two statements; which of them runs first is not known.
- The limiter's clock does not run backwards, and the key expires by the same clock.

## Left out

- Malformed settlement messages: a body that does not parse is acked and dead-lettered without a status change; the machine carries well-formed payloads only.
- Sums of 64-bit columns that overflow: sums are unbounded, single amounts are checked against the column.
- The locks of foreign keys other than the journal's to its wallets, and deadlocks between creations, which end as the machine's `Rollback`.
- The failure of a statement for reasons other than those named as faults.
- The failed event as a message that anyone consumes, and a crash between writing FAILED and publishing it.
- Replay of notification and completed dead letters: the first goes to its own queue, the second sets no status.
- The webhook call, signatures, hashing and JWTs.
- The table of FX rates: any table stands in for it, a missing pair trades at one as in the code.
- The balance of the SYSTEM wallet, and callers that are global administrators.
- Wallet creation with its loop over random account numbers, listings, controllers, guards, configuration.
- The date, status and account filters of the exports: the table is what the query selects.
- CR inside a cell: the printer does not quote for it, and the reader takes it as text.
- RateLimit.SlidingWindow.Prune: does not say which rows leave beyond what Trim concludes, because the decision depends on the count alone.
- Store.Store.CreateWithOutbox: the method runs without interference; interleaved reads are the machine's `Begin` to `Commit`.
- TokenLifetimes.TokensAreAcceptedOnce: needs each refresh undivided, which the source does not ensure; `TokenRaces` shows what happens otherwise.
- TransferService.TransferService.CreateTransfer: the method runs without interference, on a wallet that no other creation holds; concurrent creators are the machine's `Begin` to `Commit`, one per wallet.
