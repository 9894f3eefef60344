# LuminaRail settlement core: a verified model

LuminaRail takes naira from a user and pays out USDC on Stellar: a quote becomes an order, the order reserves
pool liquidity, a payment confirms the reservation, a settlement submits a transaction, and a confirmed
transaction consumes the reservation. A refund path competes with the settlement. This project models that
core in Dafny 4.11 and proves what every interleaving of workers, daemon, webhooks and refunds keeps true.

`dafny verify dfyconfig.toml` checks the whole project.

## How it is organised

| file | what it models |
|---|---|
| `StateMachines.dfy` | the transition tables of settlements, refunds, orders and payments, reservation statuses |
| `SettlementProtocol.dfy` | one settlement row under any number of workers, daemon sweeps, sweep error handlers and refunds; every read, write, approval and network call is a step of its own |
| `SettlementProcesses.dfy` | the worker's and the daemon's code over the shared rows; each method is a run of that protocol |
| `SubmissionBound.dfy`, `PayoutRefundExclusion.dfy`, `ChainTruth.dfy`, `FailedSettlements.dfy` | the safety theorems of that protocol |
| `ProtocolWitnesses.dfy` | concrete runs showing that the bound is reached and that the conditions of the theorems cannot be dropped |
| `LiquidityLedger.dfy`, `LiquidityService.dfy`, `LiquidityRaces.dfy` | pools, reservations and treasury rows: as values with invariants over runs, as the service that updates them in place, and with reads and writes of different calls interleaved |
| `SettlementPolicy.dfy` | the policy engine's guard chain, and rolling outflow limits over time |
| `Leases.dfy`, `MockRedis.dfy`, `DistributedLocks.dfy` | lease safety over a clock, the in-memory Redis with its timers, the lock service on top |
| `Refunds.dfy` | refund creation and execution, overlapping or not |
| `Quotes.dfy`, `Stroops.dfy`, `AmountPath.dfy` | quote rounding in both directions, stroop parsing and printing, one amount from the order to the pool |
| `Payments.dfy`, `PaymentHandlers.dfy` | webhook and verify handlers with separate reads and guarded writes, and their code as runs of these steps |
| `Telemetry.dfy`, `Confirmation.dfy` | the alert transducer and the confirmation poll |

Conditions on runs are stated on the steps themselves. `Fresh` says that an unguarded write still finds what its
caller validated: the status that was read, or a settlement that does not block the new refund. The code does not
check this again; theorems that need it come with an if-and-only-if that names the exact steps that break the
property.

## Where code and promise part

- **Settlement amounts are rounded.** `settlements.amount` keeps four decimals (`prisma/schema.prisma:299`)
  while orders, reservations and treasury rows keep seven. The worker signs the rounded amount and the policy
  engine compares it with the unrounded one, so exactly the orders whose destination amount has at most four
  decimals can be approved (`AmountPath.AmountsAgreeIff`, `AmountPath.ApprovesIff`).
- **FAILED does not mean unpaid.** It does exactly if no step fails the row while a broadcast transaction may
  still succeed and none broadcasts for a failed row (`FailedSettlements.FailedUnpaidIffNeverHasty`), and in every
  run in which leases hold, no worker dies or throws with an unstored hash, no broadcast goes unnoticed, sweeps keep
  off a row that a worker submits, and the RPC server reports failures truly
  (`FailedSettlements.CarefulFailedUnpaid`). The code does not see to that:
  a daemon sweep may fail a row as too old between broadcast and `markSubmitted`, and the order may then be
  refunded (`ProtocolWitnesses.FailedMayBePaidAndRefunded`);
  a sweep that merely flags the row in between makes `markSubmitted` fail and loses the hash, at any age of the row
  and without any fault (`ProtocolWitnesses.SweepBeforeStoreFails`);
  if `markSubmitted` throws, the sweep's error handler fails the row at once
  (`ProtocolWitnesses.HandlerFailsPaid`); a broadcast whose RPC call fails leaves no hash and ages out
  (`ProtocolWitnesses.UnnoticedBroadcastFails`). An RPC exception while polling is also reported as FAILED
  (`Confirmation.HonestOutcome`).
- **Updates by id can be stale.** One stale `mark*` revives a failed settlement beside a refund
  (`ProtocolWitnesses.StaleUpdateMixes`), another takes COMPLETED back after the reservation was consumed
  (`ProtocolWitnesses.StaleUpdateUncompletes`).
- **A refund can be checked too early.** `createRefund` locks the order row, not the settlement, and no transaction
  configures an isolation level, so a settlement that leaves PENDING after the check is paid out beside the new
  refund (`ProtocolWitnesses.EarlyCheckMixes`).
- **A lost lease lets two hashes in.** `markSubmitted` does not look whether the row stores another hash. Replacing
  one that a process asks about is exactly what takes processes off the stored hash
  (`ChainTruth.AlignedIffNeverConflicts`), and then a settlement can become COMPLETED beside the hash of a
  transaction that has not succeeded (`ProtocolWitnesses.LostLeaseMisfiles`).
- **Reservations are read before the pool is locked**, and `confirmReservation` locks nothing. A payment that read
  RESERVED before the expiry commits puts the released reservation back to CONFIRMED
  (`LiquidityRaces.ConfirmedLate`), and two completions that read the same active reservation subtract it twice
  (`LiquidityRaces.ConsumedTwice`). `LiquidityRaces.SoundIffNeverBreaks` says over all interleavings exactly which
  late writes break the ledger. `LiquidityLedger.dfy` takes each transaction as one step, which the default isolation
  level does not give.
- **Overlapping `executeRefund` calls** can exceed the captured amount (`Refunds.OverlapOverdraws`); the lock does
  not prevent the overlap, since a call goes on when it did not get it. They can also ask the provider again after a
  call has returned, in exactly two ways (`Refunds.SettledOnceIffNeverUnsettles`): the guarded update matches a
  PROCESSING refund that has been marked ambiguous since it was read (`Refunds.OverlapAsksAgain`), or it misses a
  refund that is still open, and a later call takes that up (`Refunds.MissedGuardAsksAgain`).
- **`createPayment` overwrites** the payment status without a guard, so a success can be committed twice
  (`Payments.OverwriteRepeatsSuccess`). A webhook event whose handler dies after claiming it is never applied
  again (`Payments.AbandonedForGood`).
- **Exponent notation.** `Decimal.toString` prints one to nine stroops with an exponent, which
  `parseAmountToStroops` rejects (`Stroops.DecimalRoundTripIff`).
- The transition table allows a return to PENDING (`src/modules/settlements/settlements.state-machine.ts:12`),
  but no code path takes it; the model follows the code paths.
- The catch block of `confirmTransaction` cannot be reached, because `getTransactionStatus` never throws.

## Model

| member | source | states |
|---|---|---|
| `SettlementProtocol.RunAdvances` | src/modules/settlements/settlements.service.ts:182-397 | in every run, {PENDING, SUBMITTING} is never re-entered once left, a stored hash is never cleared, an approval and a chain success are never taken back, and every process keeps what its position relies on |
| `SettlementProtocol.CoherentStep` | src/workers/settlement.worker.ts:143-248 | one step of any process keeps the protocol invariant and takes nothing away from the row |
| `SettlementProtocol.EffectAdvances` | src/modules/settlements/settlements.service.ts:182-314 | each database, network or lock action of a worker or daemon keeps the row invariant and lands in a position that the row it leaves justifies |
| `SettlementProtocol.LocalOk` | src/workers/reconciliation.daemon.ts:112-288 | each read or decision of worker, daemon and error handler leads to a position that the row read justifies |
| `SettlementProcesses.System.ProcessSingleOrder` | src/workers/settlement.worker.ts:104-177 | the worker's code is a run of the protocol: it throws exactly when the settlement may not be created, works exactly if it gets the lock, gives it back, submits at most once, and leaves exactly the rows that its stretches of code come to |
| `SettlementProcesses.System.CreateSettlementForOrder` | src/modules/settlements/settlements.service.ts:17-118 | returns an existing settlement, creates a PENDING one exactly if the order is SETTLEMENT_PENDING with a wallet and no live refund, and otherwise throws the source's error and changes nothing |
| `SettlementProcesses.FavourableCompletes` | src/workers/settlement.worker.ts:143-248 | when policy, network and RPC server let it, a new or interrupted settlement ends COMPLETED beside its own successful hash, with order and reservation closed |
| `SettlementProcesses.RefusedOutcome` | src/workers/settlement.worker.ts:212-221 | a new or interrupted settlement that the policy refuses or the network does not take becomes FAILED for a permanent error and REQUIRES_RECONCILIATION for any other, with hash, reservation, refunds and order as they were |
| `SettlementProcesses.UnansweredOutcome` | src/stellar/soroban/settlement.executor.ts:24-41 | a broadcast whose RPC call failed always becomes REQUIRES_RECONCILIATION without a hash, while the network has the transaction |
| `SettlementProcesses.AnsweredOutcome` | src/workers/settlement.worker.ts:223-245 | an answered submission ends COMPLETED under its own hash, with order and reservation closed, exactly if the transaction succeeds while polled and the server is reached, and REQUIRES_RECONCILIATION with that hash otherwise |
| `SettlementProcesses.PolledOutcome` | src/workers/settlement.worker.ts:226-245 | the same for a SUBMITTED or CONFIRMING settlement that is taken up again |
| `SettlementProcesses.StoppedOutcome` | src/workers/settlement.worker.ts:149-164 | stopAtSubmitting leaves a PENDING row SUBMITTING and any other alone; COMPLETED, FAILED and REQUIRES_RECONCILIATION rows and lost handles change nothing |
| `SettlementProcesses.ApprovableIff` | src/stellar/policy/settlement-policy.engine.ts:118-250 | what order, refunds, reservation, settlement row and the rest of the policy's reading must say for an approval, both directions |
| `SettlementProcesses.HashlessSweepOutcome` | src/workers/reconciliation.daemon.ts:126-187 | a row without a hash is failed with its order and reservation once it is old, and flagged before, exactly from the statuses the table allows |
| `SettlementProcesses.SweepOutcome` | src/workers/reconciliation.daemon.ts:189-288 | a row with a hash is completed, failed or left alone by the chain's answer, NOT_FOUND failing only an old row |
| `SettlementProcesses.CreatesIff` | src/modules/settlements/settlements.service.ts:22-62 | createSettlementForOrder goes on exactly for an existing settlement, or for a SETTLEMENT_PENDING order with a wallet all of whose refunds are FAILED or CANCELLED; each error names what is wrong |
| `SettlementProcesses.System.HandleSweepError` | src/workers/settlement.worker.ts:79-90 | a run of the protocol that fails exactly PENDING and SUBMITTING rows and touches nothing else |
| `SettlementProcesses.CompletesOnlyPaid` | src/workers/settlement.worker.ts:226-245 | whatever the world does, an undisturbed worker makes a settlement COMPLETED only beside a stored hash that has succeeded |
| `SettlementProcesses.System.ExecuteSettlementFlow` | src/workers/settlement.worker.ts:179-248 | a run of the protocol with the exact rows for every entry status, refusal and poll result; it submits exactly if no hash is stored and the handle is owned |
| `SettlementProcesses.System.SubmitSettlement` | src/workers/settlement.worker.ts:201-221 | returns the hash exactly if the policy's guard chain approves the rows, the network takes the transaction and the RPC call returns; a hash, or a new transaction in the network, implies every condition of the policy; a transaction whose call failed stays with the network; row, refunds and reservation are untouched |
| `SettlementProcesses.System.Conclude` | src/workers/settlement.worker.ts:231-245 | a confirmed settlement is completed and consumed, any other handed to reconciliation, if the table allows it |
| `SettlementProcesses.System.MarkSubmitting` | src/modules/settlements/settlements.service.ts:182-221 | moves the row to SUBMITTING exactly if the table allows it |
| `SettlementProcesses.System.MarkRow` | src/modules/settlements/settlements.service.ts:223-282 | moves the row to the mark's status exactly if the table allows it; only markSubmitted touches the hash |
| `SettlementProcesses.System.MarkCompleted` | src/modules/settlements/settlements.service.ts:284-332 | completes row and order and consumes an active reservation, or changes nothing |
| `SettlementProcesses.System.ReconcileSingleSettlement` | src/workers/reconciliation.daemon.ts:112-288 | a run of the protocol without the lock: exact settlement, reservation and order status for every answer and age |
| `SettlementStates.ReachedFrom` | src/modules/settlements/settlements.state-machine.ts:5-50 | from which statuses a settlement can come to each other one; COMPLETED and FAILED are final |
| `RefundStates.ReachedFrom` | src/modules/refunds/refund.state-machine.ts:5-43 | the same for refunds; SUCCEEDED, FAILED and CANCELLED are final |
| `PaymentStates.ReachedFrom` | src/modules/payments/payment.state-machine.ts:5-40 | the same for payments; only a SUCCEEDED one is refunded |
| `OrderStates.RefundsReachedFrom` | src/modules/orders/orders.state-machine.ts:5-108 | from which statuses an order comes to REFUND_PENDING, REFUNDED and REFUND_FAILED |
| `SubmissionBound.SubmittedAtMostOncePerFault` | src/workers/settlement.worker.ts:104-248 | for any number of workers, sweeps, error handlers and refunds in any interleaving: calls of submitSettlement <= 1 + lock holders that died or threw between the call and their next write + leases lost under a live worker |
| `SubmissionBound.SubmittedAtMostOnce` | src/workers/settlement.worker.ts:143-224 | with no such crash and no lost lease, submitSettlement is called at most once |
| `SubmissionBound.BoundedStep` | src/workers/settlement.worker.ts:143-224 | every step keeps the accounting in which one submission is free and each fault pays for one more |
| `SubmissionBound.ExpireBounded` | src/infrastructure/locks/distributed-lock.service.ts:138-166 | a lease that runs out under a worker that has not submitted yet costs one more submission at most |
| `ProtocolWitnesses.SubmissionBoundIsReached` | src/workers/settlement.worker.ts:195-224 | for every n there is a run with n crashes in the window and n + 1 submissions |
| `PayoutRefundExclusion.ExclusiveStep` | src/modules/refunds/refunds.service.ts:31-81 | a step mixes an approved, not failed settlement with a live refund exactly when it is a stale update that revives a FAILED settlement or a dead refund, or a refund inserted after its check went stale |
| `PayoutRefundExclusion.CheckedIff` | src/modules/refunds/refunds.service.ts:69-81 | the refund check passes exactly while the settlement is absent, PENDING or FAILED |
| `PayoutRefundExclusion.ExclusiveIffNeverResurrects` | src/stellar/policy/settlement-policy.engine.ts:140-151 | a run keeps payout and refund apart in all its states if and only if no step of it resurrects |
| `PayoutRefundExclusion.PayoutExcludesRefund` | src/modules/refunds/refunds.service.ts:31-166 | over every run whose unguarded writes are fresh, a COMPLETED settlement, and an approved one that has not failed, has no PENDING, PROCESSING or SUCCEEDED refund beside it |
| `ProtocolWitnesses.FailedMayBePaidAndRefunded` | src/workers/reconciliation.daemon.ts:126-162 | a run without crash, lost lease or stale update that ends FAILED, paid on chain and refunded |
| `ProtocolWitnesses.StaleUpdateMixes` | src/modules/settlements/settlements.service.ts:223-255 | freshness cannot be dropped: one stale markSubmitted, after a run that is fresh, puts a live settlement beside a succeeded refund |
| `ProtocolWitnesses.StaleUpdateUncompletes` | src/modules/settlements/settlements.service.ts:367-397 | one stale markRequiresReconciliation, after a run that is fresh, replaces COMPLETED after consumption |
| `ProtocolWitnesses.EarlyCheckMixes` | src/modules/refunds/refunds.service.ts:68-166 | a refund checked while the settlement was PENDING and inserted after policy approval lives beside a payout; every write before that insert is fresh |
| `ProtocolWitnesses.UnnoticedBroadcastFails` | src/stellar/soroban/client.ts:50-56 | a broadcast whose RPC call fails ends FAILED and paid, without crash, lost lease or stale update |
| `ProtocolWitnesses.SweepBeforeStoreFails` | src/workers/reconciliation.daemon.ts:163-166 | a reconciliation sweep between broadcast and markSubmitted loses the hash, and the paid settlement ends FAILED without any fault |
| `ProtocolWitnesses.HandlerFailsPaid` | src/workers/settlement.worker.ts:79-90 | markSubmitted throws after a broadcast and the error handler fails the paid settlement |
| `ProtocolWitnesses.MisalignedMisfiles` | src/workers/reconciliation.daemon.ts:189-198 | from every state in which a process asks about another hash than the stored one, both still open, a fresh continuation completes the row beside the wrong hash |
| `ProtocolWitnesses.LostLeaseMisfiles` | src/modules/settlements/settlements.service.ts:223-314 | one lost lease, all updates fresh: two submissions, the second stored hash read by the daemon and overwritten by the first, and COMPLETED beside a hash that has not succeeded |
| `ChainTruth.CompletedMeansPaid` | src/workers/settlement.worker.ts:232-237 | in every run, COMPLETED implies that a transaction broadcast for this settlement succeeded |
| `ChainTruth.CompletedHashSucceeded` | src/workers/reconciliation.daemon.ts:190-198 | while no lease is lost, a COMPLETED settlement stores a hash for which the chain reported success |
| `ChainTruth.AlignedIffNeverConflicts` | src/modules/settlements/settlements.service.ts:223-255 | in all states of a run every process works on the stored hash and COMPLETED stands beside a hash that succeeded, if and only if no markSubmitted replaces another stored hash that a process works on; nothing is assumed about leases |
| `ChainTruth.AlignedStep` | src/modules/settlements/settlements.service.ts:223-314 | the same for one step |
| `FailedSettlements.FailedUnpaidIffNeverHasty` | src/modules/settlements/settlements.service.ts:334-365 | FAILED means in all states of a run that every broadcast transaction has finally failed, if and only if no markFailed comes while one has not and no broadcast comes for a failed row |
| `FailedSettlements.CarefulFailedUnpaid` | src/workers/reconciliation.daemon.ts:126-278 | in every run in which leases hold, nobody loses an unstored hash, sweeps mark no row blindly while a worker submits or after it stored a hash, and FAILED or a forgotten hash is reported only of failed transactions, a FAILED settlement was not paid and will not be |
| `FailedSettlements.SteadyStep` | src/workers/settlement.worker.ts:143-248 | such a step accounts for every open transaction: the row stores its hash or the worker that broadcast it still carries it |
| `ChainTruth.ConsumedIffNeverUncompletes` | src/modules/settlements/settlements.service.ts:284-397 | a spent reservation belongs to a COMPLETED settlement in all states of a run if and only if no update by id takes COMPLETED back |
| `ChainTruth.ConsumedMeansCompleted` | src/modules/settlements/settlements.service.ts:284-314 | over every run whose updates are fresh, CONSUMED implies COMPLETED |
| `LiquidityLedger.ServiceSound` | src/modules/liquidity/liquidity.service.ts:23-379 | for pools seeded with any balances, after any sequence of operations: available = total - reserved, 0 <= reserved <= total, reserved = sum of RESERVED and CONFIRMED reservations, total = initial balance + inflows - payouts of the log, exactly one payout row per CONSUMED reservation |
| `LiquidityLedger.RunSound` | src/modules/liquidity/liquidity.service.ts:60-379 | the same from any state in which it holds |
| `LiquidityLedger.ReserveSound` | src/modules/liquidity/liquidity.service.ts:60-119 | a reservation that is granted keeps the balances, sums and log in step |
| `LiquidityLedger.ConfirmSound` | src/modules/liquidity/liquidity.service.ts:134-161 | confirming moves no balance and keeps the invariant |
| `LiquidityLedger.ConsumeSound` | src/modules/liquidity/liquidity.service.ts:169-239 | consumption never fails in a sound ledger and keeps the invariant |
| `LiquidityLedger.ReleaseSound` | src/modules/liquidity/liquidity.service.ts:258-304 | release and expiry never fail in a sound ledger and keep the invariant |
| `LiquidityLedger.RecordSound` | src/modules/liquidity/liquidity.service.ts:319-379 | an accepted manual transaction keeps the invariant |
| `LiquidityLedger.ClampsNeverFire` | src/modules/liquidity/liquidity.service.ts:200-208 | an active reservation is covered by reserved and total, so the clamps to zero never apply |
| `LiquidityRaces.SpendSoundIff` | src/modules/liquidity/liquidity.service.ts:175-235 | what consumeReservation writes after reading an active reservation keeps the ledger sound if and only if it is still active, or was released from a pool that holds nothing back and can pay |
| `LiquidityRaces.PromoteSoundIff` | src/modules/liquidity/liquidity.service.ts:134-161 | what confirmReservation writes keeps the ledger sound if and only if the reservation is still active |
| `LiquidityRaces.FreeSoundIff` | src/modules/liquidity/liquidity.service.ts:258-304 | what releaseReservation writes keeps the ledger sound if and only if the reservation is still active, or was released from a pool that holds nothing back |
| `LiquidityRaces.SoundIffNeverBreaks` | src/modules/liquidity/liquidity.service.ts:125-304 | with any number of confirm, consume and release calls interleaved between read and write: the ledger is sound in all states of a run if and only if no late write meets its breaking condition |
| `LiquidityRaces.HalvesAreWhole` | src/modules/liquidity/liquidity.service.ts:134-304 | a read and a write that nothing separates are the whole operation |
| `LiquidityRaces.ConsumedTwice` | src/modules/liquidity/liquidity.service.ts:175-235 | from every sound state with an active reservation, two completions that both read it break the ledger |
| `LiquidityRaces.ConfirmedLate` | src/workers/reservation-cleanup.worker.ts:70-88 | from every sound state with a RESERVED reservation, a confirmation that read it before its expiry leaves it CONFIRMED and the ledger unsound |
| `LiquidityLedger.ConsumedOnce` | src/modules/liquidity/liquidity.service.ts:183-194 | once consumed or released, a reservation keeps its status under every later sequence of operations, and consuming it again changes nothing |
| `LiquidityLedger.ReserveOutcome` | src/modules/liquidity/liquidity.service.ts:60-119 | a reservation is granted exactly for a positive amount that the pool has free and an order that has none, and then holds that amount back; each refusal has its error |
| `LiquidityLedger.OpenOutcome` | src/modules/liquidity/liquidity.service.ts:23-46 | a missing pool is opened with 10,000 units, all free |
| `LiquidityLedger.ConfirmOutcome` | src/modules/liquidity/liquidity.service.ts:134-161 | RESERVED becomes CONFIRMED, nothing else changes |
| `LiquidityLedger.ConsumeOutcome` | src/modules/liquidity/liquidity.service.ts:183-237 | an active reservation becomes CONSUMED, its amount leaves total and reserved, one payout row is written; any other is left alone |
| `LiquidityLedger.ReleaseOutcome` | src/modules/liquidity/liquidity.service.ts:258-315 | an active reservation gives its amount back, EXPIRED_RELEASED by expiry and CANCELLED_RELEASED otherwise; any other is left alone |
| `LiquidityLedger.RecordOutcome` | src/modules/liquidity/liquidity.service.ts:319-379 | a manual payout is recorded exactly if the pool has it free, any other positive amount always; totals move by the signed amount |
| `LiquidityService.Service.GetOrCreatePool` | src/modules/liquidity/liquidity.service.ts:23-46 | returns the stored pool, which it opens with the opening balance if there was none |
| `LiquidityService.Service.ReserveForOrder` | src/modules/liquidity/liquidity.service.ts:60-119 | does to the rows exactly the reserve step of the ledger; same errors, rows untouched on error |
| `LiquidityService.Service.ConfirmReservation` | src/modules/liquidity/liquidity.service.ts:134-161 | does to the rows exactly the confirm step; reports the stored status |
| `LiquidityService.Service.ConsumeReservation` | src/modules/liquidity/liquidity.service.ts:169-239 | does to the rows exactly the consume step, idempotent on consumed and released reservations |
| `LiquidityService.Service.ReleaseReservation` | src/modules/liquidity/liquidity.service.ts:258-304 | does to the rows exactly the release or expire step |
| `LiquidityService.Service.RecordTreasuryTransaction` | src/modules/liquidity/liquidity.service.ts:319-379 | does to the rows exactly the record step; same errors, rows untouched on error |
| `OutflowLimits.RollingLimit` | src/stellar/policy/settlement-policy.engine.ts:204-250 | with at most k approvals awaiting their treasury row, settlement payouts of every one-hour window sum to at most maxHourly + (k-1) maxSingle, of every 24 hours to at most maxDaily + (k-1) maxSingle, whatever payouts are recorded by hand |
| `OutflowLimits.RollingLimitOneInFlight` | src/stellar/policy/settlement-policy.engine.ts:218-250 | with one approval in flight the configured limits hold exactly |
| `SettlementPolicy.ApprovedIff` | src/stellar/policy/settlement-policy.engine.ts:118-250 | approval if and only if order, refunds, wallet, destination, amounts, payment, reservation, row, age and the minimum, single, hourly and daily limits all stand as they must |
| `SettlementPolicy.RejectionMeans` | src/stellar/policy/settlement-policy.engine.ts:118-250 | each rejection names something that is wrong |
| `OutflowLimits.RollingLimitIsReached` | src/stellar/policy/settlement-policy.engine.ts:218-250 | for every k there is a run that pays out maxHourly + (k-1) maxSingle within an hour |
| `OutflowLimits.StepWithin` | src/modules/liquidity/liquidity.service.ts:227-235 | approving, recording, dropping and time passing keep every open window's recorded and awaited payouts within the bound |
| `LeaseSafety.UnlapsedExcludes` | src/infrastructure/locks/distributed-lock.service.ts:93-133 | in every run, while a holder's lease has not lapsed every other acquire on the key fails and no other holder on it is unlapsed |
| `LeaseSafety.LapseIffLate` | src/infrastructure/locks/distributed-lock.service.ts:138-166 | a lease lapses exactly when time reaches its expiry before a renewal |
| `LeaseSafety.SectionsNeverOverlap` | src/infrastructure/locks/distributed-lock.service.ts:93-211 | if each renewal lands strictly before the current expiry, critical sections on one key never overlap |
| `LeaseSafety.ForeignLeasesUntouched` | src/infrastructure/locks/distributed-lock.service.ts:138-211 | a renewal or release changes a lease exactly if the handle is owned, Redis answers and the key stores its token; then it lives its full time to live from now, or is gone |
| `LeaseSafety.SecondHolderIffExpired` | src/infrastructure/locks/distributed-lock.service.ts:93-133 | without a renewal a second holder gets in exactly when the time to live has passed |
| `MockRedis.Redis.Set` | src/infrastructure/redis/redis.mock.ts:7-41 | answers and changes the visible keys as a map of unexpired entries would, NX and PX included; every pending timeout matches a key's current expiry |
| `MockRedis.Redis.Get` | src/infrastructure/redis/redis.mock.ts:43-47 | returns the unexpired value and changes nothing visible |
| `MockRedis.Redis.Del` | src/infrastructure/redis/redis.mock.ts:49-62 | removes exactly the named keys and counts the visible ones once each |
| `MockRedis.Redis.Pexpire` | src/infrastructure/redis/redis.mock.ts:64-82 | moves the expiry of a visible key and its timeout with it |
| `MockRedis.Redis.EvalExtend` | src/infrastructure/redis/redis.mock.ts:84-100 | extends the key exactly if it stores the token |
| `MockRedis.Redis.EvalDelete` | src/infrastructure/redis/redis.mock.ts:84-108 | deletes the key exactly if it stores the token |
| `MockRedis.Redis.CleanExpired` | src/infrastructure/redis/redis.mock.ts:130-139 | lazy expiry is invisible to clients and leaves timers in step |
| `MockRedis.Redis.FlushAll` | src/infrastructure/redis/redis.mock.ts:113-120 | nothing is visible and no timeout is left |
| `MockRedis.Redis.Fire` | src/infrastructure/redis/redis.mock.ts:33-37 | a timeout that is due never removes a key anybody can still see, so a stale timer never removes a newer lease |
| `DistributedLocks.Acquire` | src/infrastructure/locks/distributed-lock.service.ts:93-133 | returns a handle exactly if Redis answered and the key was free, and then stores its token with the time to live; throws exactly if Redis did not answer and locks are required |
| `DistributedLocks.Renew` | src/infrastructure/locks/distributed-lock.service.ts:138-166 | extends exactly its own lease; the handle stays owned exactly if it did |
| `DistributedLocks.Release` | src/infrastructure/locks/distributed-lock.service.ts:172-211 | deletes exactly its own lease; the handle is lost and its heartbeat stopped either way |
| `Refunds.RefundsBoundedAndSettledOnce` | src/modules/refunds/refunds.service.ts:107-143 | over every run without overlapping calls on one refund, live refunds of an order sum to at most its source amount, and a refund on which a call returned normally never reaches the provider again, ambiguous outcomes included |
| `Refunds.BoundedStep` | src/modules/refunds/refunds.service.ts:107-166 | an operation breaks the bound exactly when a late outcome revives a dead refund for which no room is left |
| `Refunds.BoundedIffNeverOverdraws` | src/modules/refunds/refunds.service.ts:107-379 | with read, guarded update and outcome of executeRefund as separate steps: every state of a run keeps the bound if and only if no operation overdraws, overlapping or not |
| `Refunds.OrderlyStep` | src/modules/refunds/refunds.service.ts:200-379 | without overlap, the refund of a call stands as the call has left it and is unsettled, and no operation overdraws |
| `Refunds.AskedAgainIffThrown` | src/modules/refunds/refunds.service.ts:263-379 | after an answer the provider is asked again exactly when the answer could not be stored because the order may not move on |
| `Refunds.CapturedIsSource` | src/modules/payments/payments.service.ts:55-84 | the captured amount is the order's source amount, whichever payment is chosen |
| `Refunds.OverlapAsksAgain` | src/modules/refunds/refunds.service.ts:214-236 | a call that read before the ambiguous mark and updates after it asks the provider again |
| `Refunds.MissedGuardAsksAgain` | src/modules/refunds/refunds.service.ts:229-236 | for every amount, a call that misses its guard returns a refund that a third call sends to the provider |
| `Refunds.SettledOnceIffNeverUnsettles` | src/modules/refunds/refunds.service.ts:200-379 | overlapping or not: along a run no refund on which a call has returned can reach or reaches the provider, if and only if no guarded update matches a mark made since its read and none misses an open refund |
| `Refunds.SettledStep` | src/modules/refunds/refunds.service.ts:229-236 | a step leaves a returned refund open if and only if it is a guarded update that misses a refund still open |
| `Refunds.ExecutedIsRun` | src/modules/refunds/refunds.service.ts:188-385 | a whole undisturbed call leaves the rows that its read, guarded update and outcome steps leave one after the other |
| `Refunds.OverlapOverdraws` | src/modules/refunds/refunds.service.ts:213-236 | for every amount, two overlapping calls lead to twice that amount refunded |
| `Refunds.Service.TotalAlreadyRefunded` | src/modules/refunds/refunds.service.ts:107-120 | the loop computes the sum of the order's live refunds |
| `Refunds.GrantedIff` | src/modules/refunds/refunds.service.ts:39-166 | a refund is inserted if and only if the asker is the owner in a refundable state or an administrator, the order is unsettled and may turn to REFUND_PENDING, its settlement is absent, PENDING or FAILED, the key is new, and the chosen payment has the amount left |
| `Refunds.GrantedOutcome` | src/modules/refunds/refunds.service.ts:130-166 | the inserted refund is PENDING over the amount asked for, or all that is left, and the order turns to REFUND_PENDING; nothing else changes |
| `Refunds.DuplicateOutcome` | src/modules/refunds/refunds.service.ts:94-105 | a key in use answers with its refund, to an administrator or the refund's own user, and is an error for anyone else |
| `Refunds.GrantedIsChecked` | src/modules/refunds/refunds.service.ts:69-81 | a refund is granted only where the settlement protocol's refund check passes |
| `Refunds.RefusalMeans` | src/modules/refunds/refunds.service.ts:39-143 | each error of createRefund says what is wrong |
| `Refunds.CapturedIs` | src/modules/refunds/refunds.service.ts:84-92 | the chosen payment is the requested one, or the first SUCCEEDED one, or else the first |
| `Refunds.ExecutedOutcome` | src/modules/refunds/refunds.service.ts:263-379 | a stored success refunds order and payment and gives an active reservation back as CANCELLED_RELEASED; a stored failure makes the order REFUND_FAILED; neither a failure nor an ambiguous answer touches payments or reservation; what cannot be stored leaves the refund PROCESSING |
| `Refunds.ThrowsIff` | src/modules/refunds/refunds.service.ts:285-332 | a success cannot be stored exactly for CREATED, SETTLEMENT_COMPLETED and COMPLETED orders, a failure exactly outside REFUND_PENDING and REFUND_FAILED |
| `Refunds.Service.CreateRefund` | src/modules/refunds/refunds.service.ts:21-186 | does to the database exactly the create step, with the same errors and the duplicate answer |
| `Refunds.Service.ExecuteRefund` | src/modules/refunds/refunds.service.ts:188-385 | asks the provider exactly for unsettled refunds while the handle is owned, stores the outcome with order, payment and reservation unless that call throws, and after a normal return the refund is out of the provider's reach |
| `Quotes.SourceSide` | src/modules/quotes/providers/real-fx-quote.provider.ts:74-89 | payout <= gross, payout within one stroop below net times applied rate, gross within one below the amount at the base rate, fee at least the exact fee and less than one 10^-4 unit above it, source within half a unit of the amount asked for |
| `Quotes.SourceSideGrows` | src/modules/quotes/providers/real-fx-quote.provider.ts:83-89 | at one rate a larger amount never pays out less |
| `Quotes.FeeBounds` | src/modules/quotes/providers/real-fx-quote.provider.ts:85-86 | the rounded fee lies between the exact fee and one unit more, and never exceeds the amount |
| `Quotes.NetGrows` | src/modules/quotes/providers/real-fx-quote.provider.ts:85-86 | what is left after the rounded fee grows with the amount |
| `Quotes.DestinationSide` | src/modules/quotes/providers/real-fx-quote.provider.ts:90-96 | the source is the least 4-decimal amount whose exact net covers the requested payout, both directions |
| `Quotes.DestinationCharges` | src/modules/quotes/providers/real-fx-quote.provider.ts:94-95 | gross and fee of the source amount, rounded as on the source side |
| `Quotes.DestinationRoundTrip` | src/modules/quotes/providers/real-fx-quote.provider.ts:83-96 | feeding that source back pays the requested payout up to ceil(1000 rate) stroops either way |
| `Quotes.Calculate` | src/modules/quotes/providers/real-fx-quote.provider.ts:32-97 | succeeds exactly for a positive amount, a rate that is not stale and within 50 to 500000, each failure with its error; the base rate is the naira rate, its inverse or 1 by pair |
| `Stroops.ParseIsFloor` | src/stellar/soroban/transaction.service.ts:44-54 | for every numeral whole.fraction the parser returns floor(value * 10^d), for any number of decimals d |
| `Stroops.ParseWhole` | src/stellar/soroban/transaction.service.ts:44-54 | a numeral without a point counts whole units |
| `Stroops.FixedRoundTrip` | src/stellar/soroban/transaction.service.ts:44-54 | printing with all decimals and parsing returns the number |
| `Stroops.TrimmedRoundTrip` | src/stellar/soroban/transaction.service.ts:44-54 | printing without trailing zeros and parsing returns the number |
| `Stroops.ScaledRoundTrip` | src/stellar/soroban/transaction.service.ts:44-54 | a number printed with fewer decimals parses to the number shifted by the difference |
| `Stroops.DecimalRoundTripIff` | src/stellar/soroban/transaction.service.ts:44-54 | the text of Decimal.toString parses back to the same stroops if and only if it is 0 or at least 10 |
| `AmountPath.SignedIsRounded` | src/workers/settlement.worker.ts:201-210 | the signed amount is the order's amount rounded half up to 1000 stroops |
| `AmountPath.AmountsAgreeIff` | src/stellar/policy/settlement-policy.engine.ts:164-168 | signed and expected stroops agree if and only if the order's stroops are a multiple of 1000 |
| `AmountPath.ApprovesIff` | src/stellar/policy/settlement-policy.engine.ts:118-250 | the policy approves an order if and only if its amount has at most four decimals and the other checks accept that amount |
| `AmountPath.PoolPaysReserved` | src/modules/liquidity/liquidity.service.ts:183-235 | under any later operations a reservation keeps its amount, and its pool pays exactly that amount once if it is consumed, else nothing |
| `AmountPath.EndToEnd` | src/modules/orders/orders.service.ts:64-87 | for an approved order the reserved, stored, signed, expected and consumed amounts are one number, subtracted once however often completion repeats |
| `Payments.MovesAlongTableIff` | src/modules/payments/payment.state-machine.ts:5-40 | over every run payments move only along the table if and only if no unguarded write leaves it |
| `Payments.TransitionsCommitOnce` | src/modules/webhooks/webhooks.service.ts:93-113 | over such a run no transition of a payment to another status commits twice, under any interleaving of handlers |
| `Payments.SucceededExcludesFailed` | src/modules/webhooks/webhooks.service.ts:113-166 | over such a run no payment is ever moved to both SUCCEEDED and FAILED |
| `Payments.StepOnTableIff` | src/modules/payments/payments.service.ts:220-243 | a guarded write stays on the table and in order; only an unguarded write can leave it |
| `Payments.EventReachesOnce` | src/modules/webhooks/webhooks.service.ts:39-90 | each (provider, eventId) enters the payment update at most once, however often it is delivered |
| `Payments.AbandonedForGood` | src/modules/webhooks/webhooks.service.ts:39-90 | an event whose handler died after claiming it never reaches the payment in any continuation |
| `Payments.ReachesIffAwaited` | src/modules/webhooks/webhooks.service.ts:39-113 | a claimed event that has not reached its payment still can by guarded steps if and only if a handler awaits it and the table leads to the status it names; redelivery never helps |
| `Payments.CommitsIff` | src/modules/payments/payments.service.ts:220-243 | guarded steps can commit a transition from here on if and only if the table allows it and leads to where it starts |
| `Payments.RepeatsIff` | src/modules/payments/payments.service.ts:142-157 | a committed transition can be repeated by guarded writes if and only if its start is reachable from the payment's present status |
| `Payments.AwaitedApplies` | src/modules/webhooks/webhooks.service.ts:94-113 | such a handler applies it by its own two steps where the table allows the transition |
| `Payments.WebhookApplies` | src/modules/webhooks/webhooks.service.ts:39-180 | an undisturbed new event is applied to its payment and marked processed |
| `Payments.OverwriteRepeatsSuccess` | src/modules/payments/payments.service.ts:142-157 | the unguarded write of createPayment can make one payment succeed twice |
| `PaymentHandlers.Service.ProcessWebhook` | src/modules/webhooks/webhooks.service.ts:10-202 | a run of the handler steps: a new event moves its payment exactly if the table allows it, order and reservation follow the outcome as spelled out in `Follows`, and the event is marked processed; a known event changes nothing |
| `PaymentHandlers.Service.ClaimEvent` | src/modules/webhooks/webhooks.service.ts:39-90 | claims the event exactly if it has no row yet |
| `PaymentHandlers.Service.VerifyPayment` | src/modules/payments/payments.service.ts:205-307 | a run of the handler steps: for the owner or an administrator, moves the payment to the provider's answer exactly if the table allows it, order and reservation follow as spelled out in `Follows`, with the source's errors |
| `PaymentHandlers.SettledOrdersStay` | src/modules/payments/payments.service.ts:252-307 | a payment never changes a settled, cancelled or refunded order, never settles one, and makes one SETTLEMENT_PENDING only by success and with a wallet |
| `PaymentHandlers.MovedFollows` | src/modules/webhooks/webhooks.service.ts:116-166 | after a committed success an order outside the five protected statuses is SETTLEMENT_PENDING with a wallet and PAYMENT_CONFIRMED without, and a RESERVED reservation is CONFIRMED; after a failure an order outside its four is FAILED and an active reservation CANCELLED_RELEASED |
| `PaymentHandlers.LedgerStaysSound` | src/modules/payments/payments.service.ts:252-283 | what a payment's outcome does to reservations keeps the ledger sound |
| `Telemetry.LogIsCompression` | src/modules/liquidity/treasury-telemetry.service.ts:52-112 | for any interleaved evaluations over many pools, with thresholds free per call, a pool's alerts are the changes in its run-length-compressed classifications from HEALTHY on |
| `Telemetry.NeighboursDiffer` | src/modules/liquidity/treasury-telemetry.service.ts:66-112 | a pool never repeats an alert, and each alert starts where the one before ended |
| `Telemetry.Service.EvaluatePoolBalance` | src/modules/liquidity/treasury-telemetry.service.ts:34-127 | CRITICAL exactly at or below the critical threshold, WARNING exactly above it up to the warning threshold, HEALTHY otherwise; stores the state and appends one alert with its action exactly on a change, nothing else |
| `Confirmation.ConfirmTransaction` | src/stellar/soroban/confirmation.service.ts:65-106 | the outcome follows the first decisive answer within the attempts, ten if none are given, and is a time-out exactly if there is none |
| `Confirmation.HonestOutcome` | src/stellar/soroban/confirmation.service.ts:27-106 | a confirmation is always true; for a transaction included in time the outcome is the chain's exactly when no attempt up to inclusion hit an RPC exception |

## Left out

- `PayoutRefundExclusion.PayoutExcludesRefund`: asks for fresh writes, because the code does not guarantee them; `ExclusiveIffNeverResurrects` says exactly which steps break the exclusion.
- `ChainTruth.ConsumedMeansCompleted`: asks for fresh updates for the same reason; `ConsumedIffNeverUncompletes` is the exact condition.
- `ChainTruth.CompletedHashSucceeded`: asks that no lease is lost; `AlignedIffNeverConflicts` needs no lease, and `CompletedMeansPaid` holds of every run.
- HTTP routes, controllers, validation schemas, authentication, rate limiting, audit logging (except the alert log), worker health and shutdown: no deep state.
- Prisma, ioredis, KMS, Horizon, Soroban RPC and Paystack: atomic steps or free inputs. The runs of the ledger take each transaction as serialisable, an assumption that the code does not configure; two `createRefund` transactions on one order are kept apart by the order's row lock.
- XDR decoding, signing and webhook signatures (section 2 of RFC 2104): one sign step after policy approval.
- `parseSettlementIdToU64` and the identity checks of the policy engine before its database checks.
- Decimal's 20-digit precision, `toNumber()` and `parseFloat`: numbers are exact. Column overflow is not modelled.
- Interleaving of the methods in `SettlementProcesses.dfy` and `PaymentHandlers.dfy`: a method body cannot be interrupted, so the state machines on values carry it and the methods are proved to be runs of them. Sweep batching, the lock retry loop, `attemptCount` and the sequence lock with its retry loop inside `submitSettlement` are not modelled. A submission is a call of `submitSettlement`.
- The order row in the settlement protocol: approval is the policy's refund query. Its checks of order, reservation and settlement read at other moments and only forbid, so the protocol's runs include all of theirs; the order status, which `createPayment` overwrites unconditionally, carries no safety argument.
- A worker that runs without Redis: outside production `acquire` may return null, and then `processSingleOrder` returns without acting, so only lock holders are modelled.
- `processAutomaticRefund`, the payment reconciliation of the daemon beyond creating the settlement row, and the order update of the cleanup worker: built from the modelled steps.
- The scripts of the in-memory Redis: one atomic step each, with one clock that is never at the epoch.
- `provider_transactions` rows, which copy the payment's status for display.
- BigInt of texts other than decimal digits (signs, spaces, hexadecimal): counted as a parse error.
- `resetState` of the telemetry service, and time-dependent audit metadata.
- The order tag of a treasury row: stands for the settlement reference that `consumeReservation` stores in `externalRef`.
