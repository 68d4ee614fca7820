# A verified model of the eez-rollup0 settlement core

eez-rollup0 runs a rollup whose L2 blocks can carry cross-chain calls in both directions. Transactions wait
in a *held pool* until the *composer* drains them once per L1 slot, simulates them, appends their system
transactions to the slot's Sync block, and posts the batch to L1. Until L1 confirms it, a batch lives in an
*optimistic ledger*; failures, partial settlements and reorgs give its transactions back. Other nodes *derive*
the same L2 blocks from L1. This project models that core in Dafny and proves what it keeps.

The model follows the code's own shape. Objects updated in place (`HeldPool`, `OptimisticallyIncluded`,
`SuffixReplay`, the sequencer and its committer) are classes, loops are methods with invariants, and each is
proved equal to a function on values; the laws are lemmas about those functions. Simulation, gas meters, RPC
reads, clocks and other actors are parameters or steps that may answer anything.

| file | models |
|---|---|
| `Types.dfy` | held transactions, reservations, chains, saturating arithmetic |
| `HeldPool.dfy`, `PoolRuns.dfy` | the held pool, and every run of it |
| `Optimistic.dfy` | the ledger of posted, unconfirmed batches |
| `Recovery.dfy` | disposal of failed and partly settled batches |
| `Protocol.dfy` | the composer's slot as a step machine interleaved with verdicts, cursor, reorgs and audits |
| `ProtocolFlows.dfy` | what each recovery does to the pool from its first step to its last |
| `SystemTx.dfy`, `Drain.dfy` | the canonical Sync block, and the two-phase composition that grows it |
| `DrainCauses.dfy` | why the composition keeps, defers or evicts a transaction |
| `Deriver.dfy`, `Reconcile.dfy` | rebuilding and resuming blocks, reconciling a batch's range |
| `Settlement.dfy` | batch layout, root stitching, blame for proof failures |
| `Timing.dfy`, `Sequencer.dfy`, `ProverRetry.dfy` | the block grid, one sequencer trigger, the proving deadline |
| `Checkpoint.dfy` | the boot checkpoint's text form |

`dafny verify dfyconfig.toml` checks everything.

## Where the code falls short of a simple statement

Each is settled by the exact condition under which the statement holds, several with a concrete run that
breaks it.

- A budget charge is not refunded when its transaction is evicted after the charge, so "the refused head exceeds
  the budget alone" fails: `Drain.ChargedEvictionCostsTheNext`. It holds whenever nothing was charged before:
  `Drain.BudgetCutIsJustified`, `GasBudget.CutIsJustifiedIff`.
- Beginning a batch relies on a second cursor read. If a reorg took the cursor below the gate's read in between, the
  batch may begin on a partly settled entry: `Protocol.SecondCursorReadForgets`, `Protocol.BeginForgetsNothingIff`.
- A reorg that gives back an earlier batch while a later one is outstanding can reverse a chain in the queue:
  `PoolRuns.ReorgThenDropReversesTheQueue`, `PoolRuns.RequeueKeepsOrderIff`.
- A partial settlement puts a culprit that comes back in front, so arrival order changes unless it led:
  `RecoverySpec.CulpritOvertakes`, `RecoverySpec.PartialKeepsFifoIff`.
- User transactions a rival appended behind the applied part end up before the resumed effects:
  `Deriver.RivalUserInTheMiddle`, `Deriver.RivalUsersBreakResumeIff`.
- Close to genesis a slot composition overshoots its target: `Timing.NearGenesisOvershoots`,
  `Timing.SlotEndsAtTargetIff`.
- The catch-up arm checks the head and then reads it again to build, so a head that moves in between puts the
  Sync block off the grid: `Sequencer.Sequencer.AdvanceSyncSlot`.
- A repeated checkpoint field is not refused; the last value wins: `Checkpoint.LastBlockWins`,
  `Checkpoint.DuplicateRefusedIff`.
- An inbound value too large for L1's signed amount is left out of the deposits without a refusal, so it is credited
  nothing: `Settlement.OversizedDepositVanishes`, `Settlement.CreditedInFullIff`.

## Model

| member | source | states |
|---|---|---|
| `Protocol.EveryRunIsSafe` | crates/eez-composer/src/composer.rs:1411-1654 | From the empty state, after every interleaving of slot steps, verdicts, cursor moves, reorgs, finality audits and admissions: the pool index is exact, every in-flight reservation is owned by an unconfirmed ledger entry, the slot thread or a pending task, at most one entry is unresolved, a slot begins at most one batch, and every held transaction has attempts left. |
| `Protocol.IdleRunHoldsOnlyLedger` | crates/eez-composer/src/composer.rs:1465-1547 | Between slots, with no task pending, a reservation can only belong to a batch the cursor has not confirmed, so no nonce stays blocked for nothing. |
| `Protocol.ResolutionNeverMovesBack` | crates/eez-composer/src/optimistic.rs:163-310 | In every reachable state no step lowers an entry's resolution rank or un-confirms it, and a settled or partly settled entry never becomes failed. |
| `Protocol.BeginIsFresh` | crates/eez-composer/src/composer.rs:1497-1510 | Past the gate a batch begins strictly above the cursor the slot read, on a free height, with every earlier batch resolved and none begun in this slot; it is recorded as pending with exactly the slot's survivors and nothing else changes. |
| `Protocol.RecompositionShrinks` | crates/eez-composer/src/composer.rs:3309-3446 | Only a fresh drain adds work to a slot, and every attributed proof failure strictly removes some, so re-proving without the culprit ends. |
| `Protocol.BeginForgetsNothingIff` | crates/eez-composer/src/composer.rs:4006-4012 | Every begin, rich, minimal or prefix chunk, follows a second cursor read and lands above that read: it forgets no reservation in any state satisfying the invariant exactly when its height is above the cursor the gate read, and then it keeps the whole invariant. |
| `Protocol.SecondCursorReadForgets` | crates/eez-composer/src/composer.rs:3636-3650 | A run from the empty state that reaches it: a batch at height 5 settles in part, its disposal cannot read nonces, the gate passes at cursor 5, a reorg takes the cursor to 4, the fallback begins on height 5, and the reservation still owed has no owner. |
| `Protocol.StepKeepsInv` | crates/eez-composer/src/composer.rs:1270-1372 | Each single step, including the reorg and finality handlers, keeps the inductive invariant. |
| `ProtocolFlows.FailedBatchIsChargedUnlessSkipped` | crates/eez-composer/src/composer.rs:1825-1985 | From the failed verdict on a pending batch through the undisturbed recovery, over the pool's own queue and reservations: if the slot was skipped, every batch transaction that did not land is back with the attempts it had, and nothing is evicted; otherwise each one back has one attempt more, and one that had two is gone, queued or reserved, with all of its chain above it. What landed is released; nothing else moves. |
| `ProtocolFlows.NothingAboveTheSpent` | crates/eez-composer/src/composer.rs:617-699 | If no two transactions of a charged batch share a nonce, nothing queued is left at or above one that ran out. |
| `ProtocolFlows.DropIsChargedIff` | crates/eez-composer/src/composer.rs:4561-4653 | A bundle of which L1 ran nothing is charged to its transactions exactly when it reached the relay and the pinned block, if any, carried the pinned timestamp. |
| `ProtocolFlows.InclusionKeepsTheHeight` | crates/eez-composer/src/composer.rs:4561-4653 | If L1 ran anything of a batch it ends settled when the claimed root was reached and settled in part otherwise. |
| `ProtocolFlows.PartialBatchChargesTheCulprit` | crates/eez-composer/src/composer.rs:1729-1782 | From the look-up through the undisturbed disposal: the ledger keeps exactly the spent transactions, settled for good; of the others only the one L1 stopped at is charged, the rest come back as they were, and no reservation of the batch is left. |
| `ProtocolFlows.FailedBuildGivesBack` | crates/eez-composer/src/composer.rs:3305-3500 | After a failed preparation the survivors are back, charged or not as the failure says, and the slot goes on to the minimal batch. |
| `ProtocolFlows.FailedCompositionGivesBack` | crates/eez-composer/src/composer.rs:1640-1652 | A composition that fails gives back all it drained as it was. |
| `ProtocolFlows.DrainGivesBack` | crates/eez-composer/src/composer.rs:3015-3075 | After the drain's pool calls whoever stands at or above an evicted transaction is out of the queue, what goes back above none is back as it was, stale, evicted and returned hold no reservation, and the survivors stay with the slot. |
| `ProtocolFlows.CulpritIsEjected` | crates/eez-composer/src/composer.rs:3309-3446 | A blamed transaction leaves the pool and the survivors with all of its chain above it, and nobody else does. |
| `ProtocolFlows.RecoveryComesFirst` | crates/eez-composer/src/composer.rs:1465-1482 | A tick goes straight to recovery; a slot does once every batch its cursor covers is settled for good or in part, with the former's reservations dropped. |
| `ProtocolFlows.GateOpensIff` | crates/eez-composer/src/composer.rs:1483-1510 | With no failed batch left a tick is over, and a slot may compose exactly when no entry stands above its cursor. |
| `ProtocolFlows.RolledOutComeBack` | crates/eez-composer/src/composer.rs:1270-1300 | A reorg takes out exactly the resolved batches above the new cursor, and all their transactions are back in the queue as they were, or superseded there. |
| `ProtocolFlows.FinalBatchIsAudited` | crates/eez-composer/src/composer.rs:1301-1372 | A final settled batch leaves the ledger; its audit puts its transactions back as they were, or only drops their reservations. |
| `Drain.DrainPartitions` | crates/eez-composer/src/composer.rs:2000-3075 | As multisets, the drained transactions are exactly stale + evicted + re-queued + kept, whatever the simulations, gas meters and escrow reads answer; the stale are those below their source nonce. |
| `Drain.DrainConserves` | crates/eez-composer/src/composer.rs:2245-3011 | The two phases, the gas cut and its head-alone eviction neither lose nor duplicate a live transaction. |
| `Drain.DrainIsClosed` | crates/eez-composer/src/composer.rs:867-922 | A kept transaction's whole lower chain is kept with it, and every evicted nonce of the chain lies above it, so the poison sweep cannot touch a survivor. |
| `Drain.DrainKeepsPoolOrder` | crates/eez-composer/src/composer.rs:958-961 | Both the kept and the re-queued list come out rising in nonce on each chain, restored to the order the pool dealt. |
| `Drain.DrainBlockIsCanonical` | crates/eez-composer/src/composer.rs:3115-3179 | If anything is kept, the transactions appended one by one are the canonical block rebuilt from scratch out of the kept transactions' own entries, in order, at the original nonce; each fitted the block gas left, if execution never charges more than declared; the running L1 projection is the closed-form projection of all that was charged and within the cap, and so is that of the kept costs; all withdrawals kept from the first successful escrow read on stay together within the escrow read, and each kept before it had seen its own read fail. |
| `Drain.BlockGasCutKeepsSomething` | crates/eez-composer/src/composer.rs:2959-3011 | A cut for block gas always keeps something, so only the L1 budget can evict a cut head. |
| `Drain.BudgetCutIsJustified` | crates/eez-composer/src/composer.rs:2959-3011 | Whenever a drain is cut by the L1 budget, what was charged before plus the refused head exceeds the cap, and if nothing was charged the head exceeds it alone. |
| `DrainCauses.SimulationFailureIsJudged` | crates/eez-composer/src/composer.rs:2640-2952 | At every point of every drain, for a transaction above no gap, within its gas cap and with contexts: a simulation that fails for good evicts exactly it and the drain goes on; one that fails for now stops the drain and gives it and the rest back; an outbound one short of funds waits with one more attempt, or is evicted on the third. |
| `DrainCauses.EachIsJudged` | crates/eez-composer/src/composer.rs:2245-2952 | Every transaction the drain reaches is evicted, deferred, cut, aborted on or kept, decided by a cause told from the simulation's answers, the block so far and the budgets in plain arithmetic; the causes are exhaustive and each verdict has its own. |
| `DrainCauses.EvictionsHaveACause` | crates/eez-composer/src/composer.rs:867-922 | At or below every evicted transaction stands one of its chain that was evicted for a reason of its own: it is at fault, ran out of attempts waiting for funds, or did not fit when nothing was accepted. |
| `DrainCauses.CausesEvict` | crates/eez-composer/src/composer.rs:867-922 | And whoever the drain reaches with such a reason is evicted. |
| `Drain.DrainIsClassification` | crates/eez-composer/src/composer.rs:3015-3075 | Every drain is a legal classification step of the protocol machine, so the run-level safety results apply to the real composition loop. |
| `Drain.Compose` | crates/eez-composer/src/composer.rs:2245-2954 | The two loops compute the fold the other drain results speak about. |
| `Drain.SweepPoison` | crates/eez-composer/src/composer.rs:3015-3041 | The sweep leaves the pool the eviction plan of the poison transactions describes. |
| `Drain.RequeueUnprocessed` | crates/eez-composer/src/composer.rs:979-1006 | Transactions above an evicted nonce are released, the others go back to the front in dealt order. |
| `Drain.DrainBatch` | crates/eez-composer/src/composer.rs:2000-3075 | What one whole drain keeps and the pool it leaves, as the protocol's plan of pool calls. |
| `Drain.DrainGaps` | crates/eez-composer/src/composer.rs:876-886 | The recorded poison gaps strand exactly what the evicted transactions strand: deferral gaps never evict. |
| `Drain.ChargedEvictionCostsTheNext` | crates/eez-composer/src/composer.rs:2959-3011 | Concrete drain: a charge is not refunded when its transaction is evicted afterwards, so a second transaction that fits the whole budget alone is evicted as unaffordable. |
| `GasBudget.CutIsJustifiedIff` | crates/eez-composer/src/composer.rs:389-400 | A budget refuses only costs that it would refuse fresh, for every cost, exactly when nothing was charged before or not even the base fits. |
| `GasBudget.ChargeIsExact` | crates/eez-composer/src/composer.rs:371-401 | Despite saturating arithmetic an offer is accepted exactly when the true sum fits the cap, and the new projection is the true sum. |
| `GasBudget.BudgetIs` | crates/eez-composer/src/composer.rs:326-400 | An offer is accepted exactly when transaction, base, 370,000 gas an entry, calldata, target calls and the margin fit, in plain numbers. |
| `GasBudget.RunningIsClosed` | crates/eez-composer/src/composer.rs:326-400 | Within a real cap no summed term overflows, and the running projection equals the saturating closed-form projection of the summed entries, calldata and target gas. |
| `GasBudget.DeliveryGasSaturates` | crates/eez-composer/src/composer.rs:417-425 | A fitting verdict on the saturated product of delivery gas limits implies the true sum fits the block. |
| `RecoverySpec.EveryRecoveredTxHasOneFate` | crates/eez-composer/src/composer.rs:539-588 | After the whole disposal each transaction of the batch is released, evicted, replaced by a newer queued one, or re-queued with exactly the right attempt count, decided from the state before; none keeps a reservation and the pool stays valid. |
| `RecoverySpec.SettlementLeavesNothingAbove` | crates/eez-composer/src/composer.rs:617-699 | After a charged failure nothing queued or reserved stands at or above an exhausted nonce, every other queued transaction is untouched, and only charged batch members are added. |
| `RecoverySpec.EvictionLeavesNothingAbove` | crates/eez-composer/src/composer.rs:594-612 | The same for the disposal of failed and of partly settled batches. |
| `RecoverySpec.PartialSettlementFates` | crates/eez-composer/src/composer.rs:1729-1782 | A partial settlement releases the spent, charges only the culprit, evicts only above a culprit that ran out, and returns the rest uncharged: one fate each. |
| `RecoverySpec.CulpritIsFirst` | crates/eez-composer/src/composer.rs:594-612 | The charged culprit is an unspent transaction of the batch with no unspent lower nonce on its chain. |
| `RecoverySpec.CulpritIff` | crates/eez-composer/src/composer.rs:594-612 | By position: the culprit is the first outbound transaction not spent; if all are spent it is the very first inbound one, provided that one is not; otherwise nobody. |
| `RecoverySpec.NobodyChargedUnlessStopped` | crates/eez-composer/src/composer.rs:594-612 | With every outbound transaction and the first inbound one spent, a partial settlement evicts nobody and whoever comes back has the attempts it had. |
| `RecoverySpec.CulpritGoesFirst` | crates/eez-composer/src/composer.rs:1729-1782 | The queue a partial settlement leaves, in every case: the unsuperseded others in order before the old queue, then the culprit taking its chain's suffix with it, giving way to a replacement, or going in front of everything. |
| `RecoverySpec.PartialKeepsFifoIff` | crates/eez-composer/src/composer.rs:1729-1782 | What is left of the batch is dealt in batch order exactly when the culprit ran out, was replaced, or leads everything else that comes back. |
| `RecoverySpec.CulpritOvertakes` | crates/eez-composer/src/composer.rs:594-612 | At the batch of an inbound and then an outbound transaction, neither spent: the outbound one comes back first. |
| `RecoverySpec.SettlementClosed` | crates/eez-composer/src/composer.rs:617-699 | Closed form of a charged recovery: the surviving charged transactions no newer one superseded, in order, in front of the spared queue. |
| `Recovery.RecoverSettlementFailure` | crates/eez-composer/src/composer.rs:617-699 | The loops over charges and evictions perform exactly the planned pool calls and report the number of transactions sent back. |
| `Recovery.DisposeRecoveredTxs` | crates/eez-composer/src/composer.rs:539-588 | Landed transactions are released and the rest recovered or re-queued, as planned. |
| `Recovery.RecoverPartialBatch` | crates/eez-composer/src/composer.rs:1729-1782 | Unread nonces change nothing; a claim a reorg won first changes nothing; otherwise ledger and pool take the partial plan. |
| `Recovery.EvictChains` | crates/eez-composer/src/composer.rs:640-690 | Evicting chain by chain leaves the retry list clear of every gap and reports exactly the stranded transactions. |
| `PoolRuns.EveryRunKeepsThePool` | crates/eez-composer/src/held_pool.rs:102-363 | Over every run of admissions, drains, recoveries, settlements and evictions from the empty pool: index exact, no hash queued twice or queued and reserved at once, every chain rising through the queue; and if admissions never read a future nonce and only landed transactions are released, reserved nonces leave no gap above the source nonce. |
| `PoolRuns.RequeueKeepsOrderIff` | crates/eez-composer/src/held_pool.rs:261-305 | Putting a batch back keeps chain order exactly when every batch transaction above a queued nonce of its chain is superseded. |
| `PoolRuns.ReorgThenDropReversesTheQueue` | crates/eez-composer/src/composer.rs:1270-1300 | Concrete run: a reorg gives back nonce 5 while 6 is outstanding, then 6 fails; the queue deals 6 before 5. |
| `PoolRuns.StepLeavesNoGap` | crates/eez-composer/src/held_pool.rs:117-140 | Each step of a gentle run keeps the gap-free invariant. |
| `HeldPools.HeldPool.PushContiguous` | crates/eez-composer/src/held_pool.rs:187-257 | Admission, replacement in place and every refusal, as the specification function. |
| `HeldPools.HeldPool.NextExpected` | crates/eez-composer/src/held_pool.rs:117-140 | The loop over queue and reservations finds the next nonce of the chain, or overflow. |
| `HeldPools.HeldPool.PushFrontBatch` | crates/eez-composer/src/held_pool.rs:261-305 | Two passes: contested roots first, then the front insertions. |
| `HeldPools.HeldPool.ReplacementRoots` | crates/eez-composer/src/held_pool.rs:261-285 | The map of lowest contested nonces decides supersession for every recovered transaction, both ways. |
| `HeldPools.HeldPool.ReleaseInFlightBatch` | crates/eez-composer/src/held_pool.rs:309-314 | Exactly the named reservations go; queue and index stay. |
| `HeldPools.HeldPool.EvictChainAtOrAbove` | crates/eez-composer/src/held_pool.rs:320-343 | Queue, index and reservations lose the chain's suffix together, and the evicted come back in queue order. |
| `HeldPools.HeldPool.PopN` | crates/eez-composer/src/held_pool.rs:354-363 | A prefix leaves the queue and becomes reserved. |
| `HeldPoolSpec.MinReplacementFee` | crates/eez-composer/src/held_pool.rs:89-92 | The threshold is never below the fee replaced, and equals it only at the top of the range, where saturation lets an equal offer through. |
| `HeldPoolSpec.FeeRisesByATenth` | crates/eez-composer/src/held_pool.rs:89-92 | A replacement offers a tenth more, rounded down and at least one unit; past a tenth of the range the increase stays a hundredth of the range. |
| `HeldPoolSpec.NextExpectedNonce` | crates/eez-composer/src/held_pool.rs:117-140 | A returned nonce is at least the source nonce and above everything reserved on the chain. |
| `HeldPoolSpec.AdmittedIff` | crates/eez-composer/src/held_pool.rs:187-257 | Admitted exactly when already known, or outbidding (both fees) the queued holder of the nonce, or extending the chain right above everything queued and in flight. |
| `HeldPoolSpec.AdmissionEffect` | crates/eez-composer/src/held_pool.rs:187-257 | An admission either appends or takes the very place of the transaction it outbids; nothing else moves. |
| `HeldPoolSpec.RefusalTells` | crates/eez-composer/src/held_pool.rs:187-257 | A refusal changes nothing; it names the fees that would outbid the queued holder, or the nonce that would be admitted if there is one. |
| `HeldPoolSpec.PushContiguousValid` | crates/eez-composer/src/held_pool.rs:187-257 | Admission keeps index, distinctness and reservations; a refusal changes nothing. |
| `HeldPoolSpec.EvictChainValid` | crates/eez-composer/src/held_pool.rs:320-343 | Eviction keeps the pool valid. |
| `HeldPoolSpec.PopNValid` | crates/eez-composer/src/held_pool.rs:354-363 | Draining keeps the pool valid and hands out distinct transactions. |
| `HeldPoolSpec.PushFrontBatchValid` | crates/eez-composer/src/held_pool.rs:261-305 | Re-queueing keeps the pool valid and frees exactly the batch's reservations. |
| `HeldPoolSpec.PushFrontFromClosed` | crates/eez-composer/src/held_pool.rs:286-305 | Front insertion from the back equals the unsuperseded transactions, in order, before the queue. |
| `HeldPoolSpec.MarkMatches` | crates/eez-composer/src/held_pool.rs:152-156 | Each drained transaction's reservation records that transaction, and earlier reservations stand. |
| `LedgerSpec.CursorResolvesEverythingBelow` | crates/eez-composer/src/optimistic.rs:163-176 | After a cursor pass nothing at or below the cursor is unresolved: settled entries are confirmed, all others settled in part; nothing above moves, and no entry loses transactions, identity, rank or confirmation. |
| `LedgerSpec.ConfirmedAreReleased` | crates/eez-composer/src/optimistic.rs:163-176 | Every transaction of an entry this pass confirms is handed back for release. |
| `LedgerSpec.ReleasedWereConfirmed` | crates/eez-composer/src/optimistic.rs:163-176 | Whatever is handed back for release belongs to a settled entry the cursor has just reached. |
| `LedgerSpec.RolledOutAre` | crates/eez-composer/src/optimistic.rs:320-337 | Exactly the resolved entries above the new cursor leave, with exactly their transactions. |
| `LedgerSpec.FinalizedAre` | crates/eez-composer/src/optimistic.rs:348-359 | Exactly the settled entries up to and including the finalized height leave, each audited once, in height order, with its own transactions and hash. |
| `LedgerSpec.VerdictsConverge` | crates/eez-composer/src/optimistic.rs:180-271 | Any number of verdicts in any order: settled wins if anyone says it, otherwise the first to speak; the batch keeps its transactions and identity, no other entry moves, and verdicts for a batch the height no longer holds change nothing. |
| `LedgerSpec.ClaimIsExclusive` | crates/eez-composer/src/optimistic.rs:197-238 | A claim that a reorg or a rebuild of the height beat changes nothing; one that succeeds, whatever verdicts came meanwhile, leaves exactly the spent transactions, settled and confirmed, and the batch is never offered again. Only the batch hash decides. |
| `LedgerSpec.ReinsertUndoesTakeIff` | crates/eez-composer/src/optimistic.rs:280-310 | Taking a failed batch and putting it back restores the ledger exactly when the cursor had not confirmed it; whatever was begun at the height in between is overwritten. |
| `LedgerSpec.BlockingHeight` | crates/eez-composer/src/optimistic.rs:154-157 | The least height above the cursor; none exactly when every entry is covered. |
| `LedgerSpec.PartialToDispose` | crates/eez-composer/src/optimistic.rs:197-213 | The lowest partly settled entry at or below the cursor is offered for disposal, with its own transactions; none exactly when there is no such entry. |
| `LedgerSpec.TakeFailedForRecovery` | crates/eez-composer/src/optimistic.rs:280-294 | The lowest failed entry above the cursor leaves the ledger, described in full; nothing changes exactly when there is none. |
| `OptimisticLedger.OptimisticallyIncluded.ResolveBelowCursor` | crates/eez-composer/src/optimistic.rs:163-176 | The ascending walk equals the pointwise specification and collects the newly confirmed in order. |
| `OptimisticLedger.OptimisticallyIncluded.PartialToDispose` | crates/eez-composer/src/optimistic.rs:197-213 | The search finds the lowest such entry. |
| `OptimisticLedger.OptimisticallyIncluded.TakeFailedForRecovery` | crates/eez-composer/src/optimistic.rs:280-294 | Removes the lowest failed entry above the cursor. |
| `OptimisticLedger.OptimisticallyIncluded.TakeRolledOut` | crates/eez-composer/src/optimistic.rs:320-337 | Removes the settled entries above the new cursor and returns their transactions in height order. |
| `OptimisticLedger.OptimisticallyIncluded.TakeFinalized` | crates/eez-composer/src/optimistic.rs:348-359 | Removes the settled entries at or below the finalized height, one audit each, in height order. |
| `Deriver.ResumeCompletesTheBlock` | crates/eez-deriver/src/deriver.rs:1728-1776 | For every batch of published actions, every cut of its canonical block between effects and any number of trailing user transactions: applied part + the deriver's rebuild of the rest = the whole block, the resume replay on the applied part produces it, and replaying again changes nothing. |
| `Deriver.ClaimedAreOurs` | crates/eez-protocol/src/entries/manifest.rs:83-139 | Rebuilding entries from actions is refused exactly when an action neither leaves nor reaches this rollup; otherwise no action is lost and every entry carries one call, nothing nested, for this rollup. |
| `Deriver.ClaimedInOrder` | crates/eez-deriver/src/deriver.rs:1552-1590 | The action at any position is the outbound entry numbered by the leaving actions before it, or the inbound one numbered by the others before it, with that action's body, gas, outcome, form and sidecar. |
| `Deriver.FreshBatchRebuildsWhatRan` | crates/eez-deriver/src/deriver.rs:1578-1704 | A fresh batch of which L1 ran the first entries is rebuilt as the canonical block of just those, paired by ordinal, and the trailing users; refused exactly when an outbound entry has no user transaction or that block cannot be built. |
| `Deriver.BuildSplits` | crates/eez-protocol/src/system_tx.rs:285-322 | Building a prefix of the claimed entries and then the rest from where the nonce stopped builds them all. |
| `Deriver.RebuildRest` | crates/eez-deriver/src/deriver.rs:1578-1704 | Selecting by skipped roles, reading the nonce after the prefix and building gives exactly the remaining part, followed by the batch's own trailing users. |
| `Deriver.ContentIsNew` | crates/eez-deriver/src/deriver.rs:2334-2353 | While a system transaction remains to be built, a rival's block never ends in what the resume brings, whatever users it appended, so the suffix strip cannot eat genuine transactions. |
| `Deriver.ResumeIsIdempotent` | crates/eez-deriver/src/deriver.rs:2334-2353 | A second resume on the replayed content is the identity, whatever the block holds. |
| `Deriver.RivalUsersBreakResumeIff` | crates/eez-deriver/src/deriver.rs:1690-1776 | For every batch of published actions and every cut: after a rival appended user transactions of its own, the resumed block is the canonical one exactly when it appended none; the batch's own trailing users are harmless. |
| `Deriver.RivalUserInTheMiddle` | crates/eez-deriver/src/deriver.rs:2334-2353 | At two published calls into the rollup, the first applied by a rival that appended a user transaction: the resumed block has it in the middle. |
| `Deriver.SelectAppliedSlots` | crates/eez-deriver/src/deriver.rs:2370-2409 | Succeeds exactly when every role is carried by the lists, and then pairs each outbound entry with its own user transaction. |
| `Deriver.SelectedRest` | crates/eez-deriver/src/deriver.rs:2370-2409 | Roles of the unapplied effects select exactly the remaining entries. |
| `Deriver.PairNonces` | crates/eez-protocol/src/system_tx.rs:285-322 | System transactions of a block carry consecutive nonces. |
| `SystemTx.BlockIs` | crates/eez-protocol/src/system_tx.rs:152-161 | The block is the loads, each followed by its user transaction, then the deliveries. |
| `SystemTx.BuildsIff` | crates/eez-protocol/src/system_tx.rs:285-322 | A block can be built exactly when every entry is plain and lowers, every inbound one is a sidecar, and a nonce exists for each load and own delivery; then loads come in order with their users, own deliveries after them, at consecutive nonces. |
| `SystemTx.LoadNonces` | crates/eez-protocol/src/system_tx.rs:220-250 | One load per outbound entry, in order, from the starting nonce. |
| `SystemTx.InboundSplit` | crates/eez-protocol/src/system_tx.rs:41-69 | Building a concatenation is building both parts, the second from where the first stopped; a failure of either is a failure of the whole. |
| `SystemTx.LoadsSplit` | crates/eez-protocol/src/system_tx.rs:220-250 | The same for the outbound half. |
| `SystemTx.InterleaveAppend` | crates/eez-protocol/src/system_tx.rs:152-161 | Interleaving distributes over concatenation. |
| `SystemTx.BuildInboundSystemTxs` | crates/eez-protocol/src/system_tx.rs:41-69 | The loop skips foreign rollups, refuses what does not lower or encode and nonce exhaustion. |
| `SystemTx.BuildCrossChainSyncPairs` | crates/eez-protocol/src/system_tx.rs:285-322 | Outbound pairs first, inbound deliveries after them from the nonce they left. |
| `SystemTx.InterleaveSyncBlockTxs` | crates/eez-protocol/src/system_tx.rs:152-161 | The flattening loop. |
| `Reconcile.ReconcileRange` | crates/eez-deriver/src/deriver.rs:1846-1917 | For any local chain: afterwards every block of the range matches its claim on sound ancestry; exactly the blocks from the first mismatch on are replayed, all if the boundary was stale; and up to its end the chain is the one unconditional replay leaves exactly when the kept blocks were linked and paced. |
| `Reconcile.ReconcileTwice` | crates/eez-deriver/src/deriver.rs:1846-1917 | The second of two passes replays nothing and changes nothing. |
| `Reconcile.ReplayAllFacts` | crates/eez-deriver/src/deriver.rs:2248-2276 | The replayed range carries the claims, linked and paced, on the untouched prefix. |
| `Reconcile.SecondPassIsIdle` | crates/eez-deriver/src/deriver.rs:2221-2276 | On a reconciled chain the boundary is sound, every block matches and unconditional replay is the identity on the range. |
| `Reconcile.TerminalHashFixesTheRange` | crates/eez-deriver/src/deriver.rs:2311-2320 | Two linked ranges of one length ending in the same hash are equal block by block. |
| `Reconcile.RangeSkippedIff` | crates/eez-deriver/src/deriver.rs:2311-2320 | A range is skipped by its terminal hash exactly when replaying it would leave what is there. |
| `Reconcile.SkipNeedsAncestry` | crates/eez-deriver/src/deriver.rs:2311-2320 | Whatever L1 reports as settled, a range is skipped only on sound local ancestry. |
| `Reconcile.CursorAdvances` | crates/eez-deriver/src/deriver.rs:2141-2156 | The next cursor is where the settled root was found if that lies between anchor and end of the batch, and the end otherwise; a resumed batch covers its anchor alone, a fresh one exactly the claimed heights after it. |
| `Settlement.PostBatchSettles` | crates/eez-composer/src/composer.rs:4079-4144 | A bare batch with roots attached and stitched takes L1 from the posted hash through the anchor's root and every per-effect root in order; stopped after any number of entries it stands at that root and the rest runs from there to the same end. |
| `Settlement.PreparePostBatch` | crates/eez-composer/src/composer.rs:3983-4144 | Assemble, attach and stitch together: refused exactly when the roots do not number the entries or some outbound amount is unknown or too large; otherwise anchor, outbound and inbound stand in order, each effect moving its own ether (outbound movement and withdrawal cancel, inbound equals the deposit), the whole moves deposits minus withdrawals, and the batch walks the root path from every stopping point. |
| `Settlement.AssembledIsBare` | crates/eez-composer/src/composer.rs:4025-4051 | Assembling update-free entries behind the anchor gives a bare batch with one effect per entry. |
| `Settlement.StitchedBatchSettles` | crates/eez-composer/src/composer.rs:4136-4144 | For entries touching any rollups: after the stitch L1 accepts every entry, and from each intermediate state the remaining entries reach the same end. |
| `Settlement.BatchSettlesAtLastRoot` | crates/eez-composer/src/composer.rs:4136-4157 | For one rollup the end is the last entry's new root, and every split point stands at its own entry's new root. |
| `Settlement.StitchKeepsNewRoots` | crates/eez-composer/src/composer.rs:4136-4144 | The stitch changes only where an update starts. |
| `Settlement.Assemble` | crates/eez-composer/src/composer.rs:3983-4051 | Repeated insertion yields anchor, outbound entries, inbound entries, in that order. |
| `Settlement.Attach` | crates/eez-composer/src/composer.rs:4056-4128 | Refused exactly when effects and roots do not line up or some outbound amount is unknown or too large; otherwise each effect gets its own root, an outbound movement plus its withdrawal is zero, an inbound one is its deposit or zero, and all movements sum to deposits minus withdrawals. |
| `Settlement.InboundEther` | crates/eez-composer/src/composer.rs:4053-4069 | The loop over the sidecars collects the deposits. |
| `Settlement.CreditedInFullIff` | crates/eez-composer/src/composer.rs:4053-4069 | Where the proxy hash commits to the value, an inbound call is credited its whole value exactly when L1 has a number for it, and nothing otherwise. |
| `Settlement.OversizedDepositVanishes` | crates/eez-composer/src/composer.rs:4053-4069 | At one call whose value is one too large: it is credited nothing. |
| `Settlement.StitchBatch` | crates/eez-composer/src/composer.rs:4136-4144 | The two nested loops compute the stitch. |
| `Settlement.ActionableHeldTx` | crates/eez-composer/src/prover_retry.rs:23-51 | Running subtraction over compositions finds exactly the owner the flattened batch layout names; indexes outside the inbound part find none. |
| `Settlement.OwnerContributed` | crates/eez-composer/src/prover_retry.rs:30-48 | The entry at a composition's offset is that composition's own entry, and its owner is that composition's transaction. |
| `Timing.SlotFillsTheL1Block` | crates/eez-driver/src/timing.rs:139-252 | For every valid configuration Live + Future + Sync is K, at least one is Live, and from the opening of the proof window there is time to prove and submit; the window opens on a whole second. |
| `Timing.ValidIff` | crates/eez-driver/src/timing.rs:139-252 | A timing is accepted exactly when blocks take whole seconds, at least two make up an L1 block, and proving and submitting fit into all but one. |
| `Timing.SlotEndsAtTargetIff` | crates/eez-driver/src/timing.rs:266-317 | A slot composition ends at its target exactly when the target is not within the reserve of genesis, where the subtraction saturates. |
| `Timing.NearGenesisOvershoots` | crates/eez-driver/src/timing.rs:266-317 | At a valid timing with one Future block: target 1 from head 0 gets a composition ending at 2. |
| `Timing.SlotIffWithinK` | crates/eez-driver/src/timing.rs:266-317 | A slot is closed in one trigger exactly when it needs at least one and at most K blocks; at or past its target the trigger idles. |
| `Timing.CatchupIsLargestGridHeight` | crates/eez-driver/src/timing.rs:266-317 | Farther behind, a catch-up ends at the largest grid height within the budget, and the trigger idles exactly when there is none. |
| `Timing.BoundaryIsLargest` | crates/eez-driver/src/timing.rs:323-328 | Over the cap the chunk boundary exists and is the largest grid height within the cap. |
| `Timing.AlignedChunkIsFull` | crates/eez-driver/src/timing.rs:323-328 | From a cursor on the grid a chunk is exactly the cap. |
| `Timing.CapIsAligned` | crates/eez-composer/src/composer.rs:496-502 | The cap is the largest positive multiple of K within the request, and never below K. |
| `Timing.DrainBacklog` | crates/eez-composer/src/composer.rs:3747-3849 | One chunk a slot, each ending at the highest empty affordable grid height, while the sync height moves on: it stops only when the backlog is within the cap, no such height is left, or the slots are used up; from the second on each chunk settles at least K blocks; if every height can be taken each settles the cap, and with K new blocks a slot the backlog comes within the cap once the slots times (cap - K) cover it. |
| `Timing.EmitChunk` | crates/eez-composer/src/composer.rs:3747-3849 | Ends at the highest empty grid height in reach whose batch fits the budget; refused exactly when there is none. |
| `Timing.SnappedIsLargest` | crates/eez-composer/src/composer.rs:3756-3768 | The search for a chunk's end starts at the largest grid height below the target that the cap allows. |
| `Timing.SpanStaysWithinCap` | crates/eez-composer/src/composer.rs:4199-4218 | Whatever a slot emits from one cursor read spans at most the cap, so the guard never fires. |
| `Timing.EmptyChunkBoundaries` | crates/eez-composer/src/composer.rs:3856-3898 | All and only the empty grid heights above the cursor, highest first. |
| `Timing.TargetTimestampIff` | crates/eez-driver/src/slot.rs:267-270 | The block at the derived height carries the L1-derived time exactly when that time is at a whole number of blocks after genesis. |
| `Sequencer.Sequencer.AdvanceSyncSlot` | crates/eez-driver/src/sequencer.rs:352-584 | Under any interference with the head: a steady Sync block carries the L1-derived timestamp and so stands at the derived target; undisturbed and unpaused it is committed whenever the target is beyond the reserve of genesis. A catch-up Sync block is on its grid height exactly when nobody moved the head at the read between check and build, or moved it to the same height; otherwise it is built upon the moved head. No block of the steady arm is built on a paused head, and a committed Sync block ends the run of off-grid skips. |
| `Sequencer.Sequencer.Fill` | crates/eez-driver/src/sequencer.rs:612-681 | Under the depth limit no block is built on a paused head; success is exactly `n` blocks; undisturbed the blocks stop at the first paused head and only there. |
| `Sequencer.TimestampFixesHeight` | crates/eez-driver/src/sequencer.rs:324-332 | On a paced chain the derived timestamp determines the height. |
| `Sequencer.AtTarget` | crates/eez-driver/src/sequencer.rs:495-512 | Among paced blocks the one at an L1-derived target is the one with that L1 time. |
| `ProverRetry.ProveWithRetry` | crates/eez-composer/src/prover_retry.rs:163-260 | Whatever the prover does: attempts are bounded by the budget, spaced by at least 80 ms, none starts past the cutoff or runs into the submission slack of an exact target (up to the skew between the two clock reads), otherwise the whole call fits the proof time; nothing runs exactly when there is no budget. A failure that can be retried is retried as long as there is time, a final answer ends the loop, and the call succeeds exactly when the last answer came in time and was a proof. |
| `ProverRetry.BackoffIsBounded` | crates/eez-composer/src/prover_retry.rs:145-161 | Every wait is within a fifth of its capped base, between 80 and 1200 ms, and both ends are drawn. |
| `ProverRetry.BaseDoubles` | crates/eez-composer/src/prover_retry.rs:145-161 | The base wait doubles from 100 ms up to a second. |
| `ProverRetry.BudgetEndsBeforeTheSlot` | crates/eez-composer/src/prover_retry.rs:130-176 | A first attempt may start exactly as long as proof and slack still fit before the exact target, and the budget is what is left beyond them. |
| `Checkpoint.RoundTrip` | crates/eez-deriver/src/checkpoint.rs:136-185 | Decoding an encoded checkpoint returns it, for all field values. |
| `Checkpoint.TextIs` | crates/eez-deriver/src/checkpoint.rs:136-147 | The file's seven lines, with their keys and fields. |
| `Checkpoint.NumbersAreRead` | crates/eez-deriver/src/checkpoint.rs:148-185 | A decimal number is read back, with or without a plus sign, unless it exceeds 64 bits. |
| `Checkpoint.HashesAreRead` | crates/eez-deriver/src/checkpoint.rs:148-185 | A hash is read from 64 digits of either case, with or without the prefix, and from nothing else. |
| `Checkpoint.PrefixDecodesIff` | crates/eez-deriver/src/checkpoint.rs:148-185 | A prefix of the encoding decodes exactly when it lacks at most the final line break, and then to the checkpoint written: no torn write yields another. |
| `Checkpoint.DuplicateRefusedIff` | crates/eez-deriver/src/checkpoint.rs:148-185 | A second line for a field is refused exactly when its value does not parse; otherwise that value wins and the other fields stand. |
| `Checkpoint.LastBlockWins` | crates/eez-deriver/src/checkpoint.rs:148-185 | Behind any encoded checkpoint a second line `l1_block=7` is read as block 7. |
| `Checkpoint.Decode` | crates/eez-deriver/src/checkpoint.rs:148-185 | The reader computes the decoding the lemmas speak about. |

## Left out

- EVM execution, state roots, witnesses and proofs: a simulation, a gas meter or a prover is a function that may answer anything.
- Transaction bytes and signatures: a system transaction is a free constructor of its entry and nonce, so equal bytes are equal constructors; the call hash that marks an inbound entry is taken to be nonzero.
- Calldata pricing: the L1 cost of a transaction is a parameter; only how costs are summed and capped is modelled.
- The Engine API behind the block committer: a commit is one atomic check of the parent and append.
- RPC reads, log scanning, fee selection, bundle submission, metrics and logging: they only feed values or are observed.
- `reconcile_scanned_batches` and `check_claimed_state`: only the range and cursor arithmetic and the range skip are modelled, because the rest compares opaque roots.
- The L1-anchored scheduler's armed trigger: only the height and timestamp it derives.
- Whether a loaded checkpoint is still usable: two hash comparisons.
- Saving and loading the checkpoint file: rename atomicity belongs to the file system; the text form is modelled in full.
- The actionable failure's request check and the classification of simulation errors: they map error strings to the outcomes the drain takes as parameters.
- Attempt counters are unbounded naturals; they are bounded by the limit of three attempts in every reachable state, so the 32-bit saturation is never reached.
- PoolRuns.EveryRunKeepsThePool: covers recoveries that give back the top of each chain; the general re-queue is `PoolRuns.RequeueKeepsOrderIff`, because order then really can break.
- Protocol.EveryRunIsSafe: covers runs in which a slot begins above the cursor its gate read; a second read below it is `Protocol.BeginForgetsNothingIff`, because there safety really fails.
- Checkpoint.DuplicateRefusedIff: speaks of values on one line that do not end in white space.
- Drain.DrainBlockIsCanonical: does not bound withdrawals kept before any escrow read succeeded; the code admits those unchecked, because L1 checks them again.
- Settlement.PreparePostBatch: assumes composed entries carry no root updates of their own, as the composer builds them; for entries that do, `Settlement.StitchedBatchSettles` speaks.
- ProtocolFlows.PartialBatchChargesTheCulprit: takes a batch that lists no transaction hash twice, because the culprit is named by its hash.
- Timing.SnappedIsLargest: takes a cap of at least K, as `Timing.CapIsAligned` gives it.
