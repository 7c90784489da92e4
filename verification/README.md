# Verification of the Bosphor relayer core

A relayer stores a user's blob on Walrus, records it on Sui, returns a proof to the origin chain, and is paid from an
escrow quoted in advance. This project models the parts of the repository that must not go wrong and proves what they
promise. `dafny verify dfyconfig.toml` checks all of it.

**The durable store queue.** `StagedTable` is the `staged_intent` row and what each SQL statement does to it.
`IntentProtocol` is one intent seen from outside: its row, its ledger entry, what Sui holds for it, every activation of
`store()` and of the ledger backfill in any number of processes, and a log of what was spent and sent. One step is one SQL
statement, one answered foreign call, or one change of control (throw, timeout, crash, settled outcome); steps interleave
freely. `IntentSafety` (what holds whatever happens), `IntentOrder` (step order), `IntentSpend` (the WAL account),
`IntentObject` (one object), `IntentDigest` (one digest), `IntentRetries` (the send budget), `IntentMoney` (what was weighed
and booked) and `IntentPayload` (what was uploaded, and that it matched) hold the invariants and their step lemmas;
`IntentRuns` the theorems over every run; `BreakEvenService` the guard that a configuration injects and what it makes of the
money; `IntentLeases` the claim lease. `Fleet` puts all intents into one table, one ledger and one byte budget.

**The classes.** `StagedIntentStore`, `StagedReaper`, `StorageOpLedgerStore`, `StorageOpLedger`, `PnlLedger` and
`SettlementReconciler` are the source's services with their fields. `IntentProcessor` is the process itself: claim tick,
`runStore`, the `store` pipeline, the Sui event and byte recovery (`ByteRecovery` is what a sweep makes of the table). Each of
its statements changes the real tables and is proved to be one enabled protocol step (`ProcessorSteps`); before each statement
other processes take any steps they like (`Interleave`), statements fail or lose their answer, and the attempt timeout may fire
(`Arrive`). Its invariant says that both tables are what the
protocol's history made them and that the P&L book matches, so every theorem about runs holds of the running class.

**The money.** `WalCost` is the RedStuff size and cost formula, `Pricing` the quote engine, the rounding to native units and
the break-even guard, `Charges` what those two charge with every unit and price written out (USD and ratios are `real`,
token amounts `int`), `StoreEpochs` the duration policy, `Settlement` the profit-and-loss ledger.

**The edges.** `RateLimit` is the swept and capped fixed-window limiter against the unbounded one, `RateLimitMiddleware` the
budgets of one request, `CommitmentCodec` the wire form and the intent id preimage, `RelayerRetry` the SDK's bounded retry
loop and the blob upload, `OrderIndependence` the two producers of a row.

Some theorems hold only for histories without certain events, which the code does not exclude: a timed-out attempt gives its
lease back while its work goes on, a process may claim its own leased row, and retention is only a time. Each condition is the
event itself, noted in the log at the claim or the purge where it happens. For each event `IntentRaces` has runs in which it
happens, the theorem's other conditions hold, and its conclusion fails:

| event in the log | theorems that need its absence | runs in which they would fail |
|---|---|---|
| `cut`: a purge hit a row an attempt was working on | `StepOrder`, the second half of `NoLimbo`, that of `NoSecondUpload`, `OneObject`, `OneDigest`, the three `Every…IsTheRows` | `PurgeCanFinishWithoutObject`, `PurgeCanStrand`, `PurgeCanLeaveTwoWorking`, `PurgeCanOrphanObject` |
| `dropped`: a row with an object was purged | `OneObject`, `OneDigest` | `QuietPurgeCanRename` |
| `buyRaced`: an attempt started from a row without an object while another could still buy one | `OneObject`, `NoSecondUpload`, the second half of `SpendConservation`, the three `Every…IsTheRows` | `TimeoutCanBuyTwice` |
| `recordRaced`: an attempt started from a row without a digest while another could still record one | `OneDigest`, `EveryEntryIsTheRows`, the digest equality of `NoStoreLostOrRewritten` | `MarkerCanReplaceDigest` |
| `resumed`: an attempt started while an earlier one's outcome was still to be written | `SendsBounded`, `FailureCounts` | `ResumingCanSendForever`, `ResumingCanMiscount` |
| the failed attempt is `bygone`: its row was purged since it started | `FailureCounts` | `BygoneCanMiscount` |

So a timeout that hands the row over once its object is persisted leaves spend, step order and the object as the theorems say,
though the digest only once that is persisted too; and when the timed-out attempt's outcome was written before the next one
started, as `runStore` does it, the counts and the send bound hold as well, however long the timed-out work goes on.

A completion is booked only by the attempt whose own guard answer let the spend through. When that attempt dies after the
upload, whoever resumes finds the WAL spent, does not ask the guard and books nothing (`CompletionCanGoUnbooked`), so the
summary counts no loss but may miss a profit.

Two places where the code and its own words differ, modelled as the code does it: `usdToNative` is described as rounding up,
but below nine decimals its last division truncates (`TruncatesBelowNine`, with the exact condition in
`NativeCoversBelowNine`); and `upsertBytes` explains a refused write by reading the total a second time, so its reason can be
wrong when another write comes between (`ReportIsTrueWhen`, `FreedBetweenStatements`).

## Model

| member | source | states |
|---|---|---|
| `IntentRuns.NoResurrection` | relayer/src/staged/staged-intent.store.ts:190-201 | over any run of any interleaving, a row that left `active` is never active again before it is purged, and never holds bytes |
| `IntentRuns.NoStoreLostOrRewritten` | relayer/src/ledger/storage-op-ledger.service.ts:103-151 | a store digest once persisted is in the ledger or the row holds one, and it is the first one unless two attempts could record at once; `ledgered` implies the entry; an entry never changes over any run |
| `IntentRuns.StepOrder` | relayer/src/intent/intent.processor.ts:606-673 | over every run without a purge under a working attempt: a done row has its object, digest and proof and no bytes; an active ingested row without bytes is recorded on Sui |
| `IntentRuns.NoLimbo` | relayer/src/staged/staged-intent.store.ts:287-298 | an active received row has deadline and commitment, and, unless a purge came under a working attempt, exactly one of drain loop and byte recovery can act on it |
| `IntentRuns.SpendConservation` | relayer/src/intent/intent.processor.ts:571-599 | over every run: uploads bought = lost + overwritten + purged with their row + held by attempts between upload and persist + the one on the row; while only one attempt at a time may buy, none is overwritten and at most one is held or on the row |
| `IntentRuns.NoSecondUpload` | relayer/src/intent/intent.processor.ts:575-604 | while only one attempt at a time may buy, an upload is only reached while the row names no object; and, unless a purge came under a working attempt, while no other attempt is working |
| `IntentRuns.OneObject` | relayer/src/intent/intent.processor.ts:606-670 | while only one attempt at a time may buy and no row is purged under a working attempt or with its object: the object on Sui, every proof sent or confirmed and the ledger entry name the row's persisted object, blob and end epoch, whatever else overlaps |
| `IntentRuns.OneDigest` | relayer/src/intent/intent.processor.ts:606-654 | while only one attempt at a time may record and no row is purged under a working attempt or with its object: the row holds the first digest, and the ledger that digest or null for the marker |
| `IntentRuns.EveryProofIsTheRows` | relayer/src/intent/intent.processor.ts:659-673 | in every life of the row: while only one attempt at a time may buy and unless a purge came under it, each proof sent or confirmed names the present row's blob and end epoch |
| `IntentRuns.EveryExecutionIsTheRows` | relayer/src/intent/intent.processor.ts:606-615 | in every life of the row, under the same conditions, what is handed to execute_store is the present row's object, and what Sui then first holds |
| `IntentRuns.EveryEntryIsTheRows` | relayer/src/intent/intent.processor.ts:639-654 | in every life of the row, and while only one attempt at a time may record, an entry written inline is made of the present row's object and digest, the attempt's sender, and its row's size, source chain and app id |
| `IntentRuns.SendsBounded` | relayer/src/intent/intent.processor.ts:412-457 | attempts of a row stay below the larger cap; proof sends, also those of timed-out attempts that work on, are at most that cap for each life of the row plus the crashed attempts, as long as every outcome owed is written before the next attempt starts |
| `IntentRuns.FailureCounts` | relayer/src/intent/intent.processor.ts:417-457 | as long as every outcome owed is written before the next attempt starts: writing that of a failed attempt of the present row raises its attempts by one or leaves it settled |
| `IntentRuns.DeadOnlyAtCap` | relayer/src/intent/intent.processor.ts:417-457 | a failed attempt's row dies exactly when its count reaches the cap of its phase, the return leg's or the store's; below it, it is due again at the given time with its lease released |
| `IntentRuns.ReturnCapOnlyAfterConfirm` | relayer/src/intent/intent.processor.ts:659-673 | no step of any process gives an attempt the return leg's cap but its own failed confirmation |
| `IntentRuns.PricedAsUploaded` | relayer/src/ingest/intent-ingest.service.ts:88-94 | over every run each upload had exactly the committed size in bytes, and that is the size the guard weighed |
| `IntentRuns.OnlyMatchingBlobsAreBought` | relayer/src/intent/intent.processor.ts:473-484 | over every run each upload was paid by an attempt whose row, still without an object, had a blob id matching the committed reference, and the bytes that went up have the committed blob id too |
| `IntentRuns.StoredForWhatWasCommitted` | relayer/src/intent/intent.processor.ts:500-532 | over every run each upload was for exactly the committed epochs, the row's before Sui's: within the cap, one for a commitment of zero, the default only for none |
| `BreakEvenService.NeverLoseMoney` | relayer/src/intent/intent.processor.ts:507-565 | with the break-even service injected, over every run: a weighed spend's escrow was worth, at the prices read, the live WAL price of its very size and epochs plus return fee plus gas, with the margin on top of all three; with the guard on, an unweighed one had no escrow to weigh; every booked completion shows such an escrow and such fees, and is profitable |
| `IntentRuns.StepHealthy` | relayer/src/intent/intent.processor.ts:472-683 | every enabled step, from every process, keeps all invariants at once, each under its own condition |
| `IntentSafety.StepKeeps` | relayer/src/staged/staged-intent.store.ts:164-552 | every statement keeps: settled rows hold no bytes, tables agree, attempts bounded, received rows have their terms |
| `IntentOrder.StepInOrder` | relayer/src/intent/intent.processor.ts:472-683 | every step that is not a purge under a working attempt keeps each working attempt and the row at matching places in the pipeline |
| `IntentSpend.StepAccounted` | relayer/src/intent/intent.processor.ts:571-599 | every step, purges included, keeps the WAL account balanced |
| `IntentObject.StepOwned` | relayer/src/intent/intent.processor.ts:571-673 | while only one attempt at a time may buy, no object is written over another, and every working attempt either may still buy for a row without an object or, unless a purge came under it, holds the row's object |
| `IntentObject.StepNames` | relayer/src/intent/intent.processor.ts:606-670 | until a row with an object is purged, every step keeps Sui, proofs, entry and backfill snapshots on the row's object |
| `IntentDigest.StepRecorded` | relayer/src/intent/intent.processor.ts:606-634 | while only one attempt at a time may record, no digest is written over another, and the first one stays in the row until the ledger has the store |
| `IntentDigest.StepMemory` | relayer/src/ledger/storage-op-ledger.service.ts:39-78 | until a row with an object is purged, every step keeps row, entry and backfill snapshots on the first digest |
| `IntentPayload.StepSized` | relayer/src/ingest/intent-ingest.service.ts:88-129 | every step keeps rows, attempts and spends at the committed size and blob id, and every attempt past verification on a matching row |
| `IntentRetries.StepBudgeted` | relayer/src/intent/intent.processor.ts:412-457 | every step, purges and timed-out work included, keeps all proof sends made and still possible paid for by counted attempts, rows deleted and crashes, as long as every outcome owed is written before the next attempt starts |
| `IntentMoney.StepMoneySafe` | relayer/src/intent/intent.processor.ts:507-682 | every step keeps every attempt, spend and booked entry tied to an answer of the guard, and every spend to exactly the committed epochs |
| `BreakEvenService.BackedCovers` | relayer/src/settlement/break-even-guard.service.ts:43-62 | what the injected service lets through is paid for: the escrow's worth against the WAL cost of that size and duration, the return fee and the gas, each written out, with the margin |
| `BreakEvenService.ServiceWeighs` | relayer/src/settlement/break-even-guard.service.ts:43-62 | what the service answers is about this spend's own size, epochs, escrow and market, and it proceeds exactly when the escrow pays the three fees with the margin |
| `BreakEvenService.InjectedGuardChecks` | relayer/src/settlement/break-even-guard.service.ts:43-62 | any configuration can be given that service as its guard, so what is asked of one above can be met |
| `IntentLeases.LeaseSafety` | relayer/src/staged/staged-intent.store.ts:338-357 | after one claimant's last claim another gets the row only once that lease has strictly expired, or a reschedule or a purge of the row came in between |
| `IntentLeases.OwnClaimRenews` | relayer/src/staged/staged-intent.store.ts:320-357 | a claimant draining its own row holds it for a full lease again |
| `IntentLeases.HeldUntilFreed` | relayer/src/staged/staged-intent.store.ts:338-357 | over any run a held lease ends only by expiry, reschedule, purge or the owner's next claim |
| `IntentLeases.RescheduleGates` | relayer/src/staged/staged-intent.store.ts:338-350 | a rescheduled row may be claimed by any process from its next attempt time on, and not before |
| `IntentLeases.ReadyAtOnce` | relayer/src/staged/staged-intent.store.ts:338-350 | a row may be claimed as soon as bytes and event are in, in either order |
| `IntentLeases.StartsInTime` | relayer/src/intent/intent.processor.ts:285-303 | an attempt starts only before the deadline, on a due row no other process holds, and beside no working attempt of its own process |
| `IntentLeases.RecoveryWaits` | relayer/src/staged/staged-intent.store.ts:281-305 | a row without bytes is up for recovery from the grace after its event, once tried from the backoff, and only before its deadline |
| `IntentRaces.TimeoutCanBuyTwice` | relayer/src/intent/intent.processor.ts:390-411 | a timeout hands the row over while the first attempt may still buy: two uploads bought, and Sui holds another object than the row |
| `IntentRaces.MarkerCanReplaceDigest` | relayer/src/intent/intent.processor.ts:606-634 | a timeout after the upload: one object throughout, but the second attempt's marker replaces the first digest |
| `IntentRaces.PurgeCanStrand` | relayer/src/staged/staged-intent.store.ts:542-552 | a purge under a running attempt leaves a received row neither loop can act on |
| `IntentRaces.PurgeCanFinishWithoutObject` | relayer/src/staged/staged-intent.store.ts:542-552 | and, when the attempt goes on, a done row that names no object |
| `IntentRaces.PurgeCanOrphanObject` | relayer/src/staged/staged-intent.store.ts:542-552 | a purge before the upload lands: Sui and the ledger name an object and a digest no row ever held |
| `IntentRaces.PurgeCanLeaveTwoWorking` | relayer/src/staged/staged-intent.store.ts:542-552 | and, when the row is made again, an upload for it while the first attempt still works |
| `IntentRaces.QuietPurgeCanRename` | relayer/src/staged/staged-intent.store.ts:542-552 | a finished intent purged in peace and delivered again: Sui and the ledger keep the old names, the row has new ones |
| `IntentRaces.ResumingCanSendForever` | relayer/src/staged/staged-intent.store.ts:338-357 | a process claiming its own row before the outcome is written sends any number of proofs without a count |
| `IntentRaces.ResumingCanMiscount` | relayer/src/intent/intent.processor.ts:412-457 | and two outcomes from one snapshot count once |
| `IntentRaces.BygoneCanMiscount` | relayer/src/intent/intent.processor.ts:412-457 | an outcome written after its row was purged lands on the new row and raises its count by two |
| `IntentRaces.CompletionCanGoUnbooked` | relayer/src/intent/intent.processor.ts:534-682 | a guarded upload whose process dies is completed by another and never booked |
| `Fleet.MoveReachable` | relayer/src/staged/staged-intent.store.ts:30-72 | a step of one intent keeps every intent in a state its own protocol reaches |
| `Fleet.MoveIsLocal` | relayer/src/staged/staged-intent.store.ts:360-468 | a step of one intent changes that intent's row and no other |
| `Fleet.HistoryReachable` | relayer/src/intent/intent.processor.ts:270-314 | over any history of any intents every intent stays reachable, so the run theorems apply to all of them |
| `Fleet.BytesStayWithinCap` | relayer/src/staged/staged-intent.store.ts:164-233 | when every write passes the cap the bytes held never exceed it, whatever interleaves |
| `Fleet.LedgerOnlyGrows` | relayer/src/ledger/storage-op-ledger.store.ts:65-91 | over any history no ledger entry is removed or changed |
| `Fleet.LedgerCoversStores` | relayer/src/ledger/storage-op-ledger.service.ts:123-151 | in every reachable world a completed store is in the ledger or still in the table with a digest, and it is the first one given unless two attempts could record at once |
| `StagedBytesBudget.AdmissionKeepsBudget` | relayer/src/staged/staged-intent.store.ts:164-224 | a capped write keeps the total within the cap, and re-buffering an intent replaces its own share |
| `StagedBytesBudget.TotalWithout` | relayer/src/staged/staged-intent.store.ts:226-233 | the total is one row's share plus the total of the others, whichever row is taken out |
| `StagedBytesBudget.ReportIsTrueWhen` | relayer/src/staged/staged-intent.store.ts:205-224 | the reported outcome is the write's own exactly when the write landed or the second read sees the cap as the write did |
| `StagedBytesBudget.FreedBetweenStatements` | relayer/src/staged/staged-intent.store.ts:205-224 | bytes freed between the two statements turn a refused write into a reported settled row |
| `StagedIntentStores.StagedIntentStore.StagedBytesTotalExcluding` | relayer/src/staged/staged-intent.store.ts:226-233 | the sum of sizes over the rows holding bytes, one intent left out |
| `StagedIntentStores.StagedIntentStore.UpsertBytes` | relayer/src/staged/staged-intent.store.ts:164-224 | accepted exactly when the other rows' bytes and these stay within the cap and the row is absent or active, and then the row is written; otherwise nothing is, and the reason is what a second read finds, after whatever others wrote in between |
| `StagedIntentStores.StagedIntentStore.MarkReceived` | relayer/src/staged/staged-intent.store.ts:242-272 | records the event on an absent or active row, reports false and changes nothing otherwise |
| `StagedIntentStores.StagedIntentStore.DrainDue` | relayer/src/staged/staged-intent.store.ts:338-357 | leases exactly the oldest due rows up to the limit and leaves every other row alone |
| `StagedIntentStores.StagedIntentStore.ClaimForByteRecovery` | relayer/src/staged/staged-intent.store.ts:281-306 | returns the oldest rows whose bytes are due for recovery, and none that is not |
| `StagedIntentStores.StagedIntentStore.TakeOldest` | relayer/src/staged/staged-intent.store.ts:338-357 | distinct rows in creation order, as many as the limit allows, none older left out |
| `StagedIntentStores.StagedIntentStore.PendingLedgerRows` | relayer/src/staged/staged-intent.store.ts:400-410 | the oldest completed stores the ledger has not recorded |
| `StagedIntentStores.StagedIntentStore.ExpireDue` | relayer/src/staged/staged-intent.store.ts:507-516 | expires the active rows whose deadline is before `now`, frees their bytes, and leaves every other row as it was |
| `StagedIntentStores.StagedIntentStore.ExpireUnreceived` | relayer/src/staged/staged-intent.store.ts:525-535 | expires and names the active rows without event or deadline created before the cutoff, and leaves every other row as it was |
| `StagedIntentStores.StagedIntentStore.PurgeTerminal` | relayer/src/staged/staged-intent.store.ts:542-552 | deletes the settled rows last touched before the cutoff whose store, if any, the ledger has, and leaves every other row as it was |
| `StagedReapers.StagedReaper.Reap` | relayer/src/staged/staged-reaper.service.ts:53-80 | one pass does the three statements in order, and nothing while another pass runs |
| `StagedReapers.ReapedIsTended` | relayer/src/staged/staged-reaper.service.ts:53-61 | after a pass every active row has a live deadline or is un-received, without deadline and younger than the TTL |
| `StagedReapers.ReapLeavesAlone` | relayer/src/staged/staged-reaper.service.ts:53-61 | a pass leaves unchanged every active row whose deadline is not before `now`, every one without a deadline that was received or is within the TTL, and every settled row within the retention or unknown to the ledger |
| `StagedReapers.ReapExpires` | relayer/src/staged/staged-intent.store.ts:507-535 | it expires every other active row and frees its bytes |
| `StagedReapers.ReapDeletes` | relayer/src/staged/staged-intent.store.ts:542-552 | it deletes every other settled row |
| `StagedReapers.SettledRowsAreKept` | relayer/src/staged/staged-intent.store.ts:433-448 | however a row was settled, every pass keeps it for the whole retention from that moment |
| `StagedReapers.ReapKeepsUnledgered` | relayer/src/staged/staged-intent.store.ts:542-552 | a pass deletes no completed store the ledger lacks |
| `ReaperHistory.EachInTurn` | relayer/src/staged/staged-intent.store.ts:507-552 | a statement over many rows is the same rows' protocol steps taken one by one |
| `ReaperHistory.ReapIsAHistory` | relayer/src/staged/staged-reaper.service.ts:53-80 | a whole pass is a history of protocol steps that leads to the reaped table and leaves the ledger alone |
| `ReaperHistory.NoLimboAfterReap` | relayer/src/staged/staged-reaper.service.ts:53-61 | from every reachable world, once reaped no active row is past its deadline or forgotten |
| `OpsLedgerService.StorageOpLedgerStore.Record` | relayer/src/ledger/storage-op-ledger.store.ts:65-91 | the first entry of an intent wins; reports whether this call inserted |
| `OpsLedgerService.StorageOpLedger.RecordCompletedStore` | relayer/src/ledger/storage-op-ledger.service.ts:103-117 | true exactly when both writes answered; the flag never runs ahead of the entry, whichever write fails |
| `OpsLedgerService.StorageOpLedger.Backfill` | relayer/src/ledger/storage-op-ledger.service.ts:123-151 | records every pending store whose commitment reads and whose writes go through, oldest first, changing no entry and no other column; every entry gained is built from its own row and commitment |
| `OpsLedgerService.OnlyForward` | relayer/src/ledger/storage-op-ledger.service.ts:123-151 | what one row of a sweep caught stays caught through the rest of it |
| `OpsLedger.WritersAgree` | relayer/src/ledger/storage-op-ledger.service.ts:39-61 | once object and digest are persisted the inline writer and the backfill make the same entry, but for when |
| `OpsLedger.EntryRecordsTheStore` | relayer/src/ledger/storage-op-ledger.service.ts:39-61 | what an entry names: intent, origin, sender, size, blob, object, app, network and digest, where the marker is no digest |
| `OpsLedger.StoredWhenPersisted` | relayer/src/ledger/storage-op-ledger.service.ts:59-59 | an entry's storing time is when the digest was persisted, however late it is written |
| `IntentProcessors.IntentProcessor.Tick` | relayer/src/intent/intent.processor.ts:270-314 | leases the oldest due rows, starts every startable one while slots are free and no other, sees each to a settled end, and leaves the tables a history of protocol steps |
| `IntentProcessors.IntentProcessor.Select` | relayer/src/intent/intent.processor.ts:285-303 | the rows to start: claimed, not in process, before their deadline, with a sender, within the concurrency, none passed over |
| `IntentProcessors.IntentProcessor.RunStore` | relayer/src/intent/intent.processor.ts:377-458 | the slot is held until the work ends; nothing is left pending; every failed attempt is counted once or its row is dead |
| `IntentProcessors.IntentProcessor.OnFailure` | relayer/src/intent/intent.processor.ts:417-457 | dead at the phase's cap, else due again after the capped exponential backoff with the lease released; the row as `FailureIs` says |
| `IntentProcessors.IntentProcessor.FailureIs` | relayer/src/intent/intent.processor.ts:419-457 | the row a failure leaves: dead at the cap of its own phase, else due after base times two to the attempts, or the cap on that, and released; no other row touched |
| `IntentProcessors.IntentProcessor.BackoffDoubles` | relayer/src/intent/intent.processor.ts:419-421 | each delay is twice the one before, from the base on, never past the cap |
| `IntentProcessors.IntentProcessor.Store` | relayer/src/intent/intent.processor.ts:464-683 | under any interleaving and failure each statement is the protocol's next step; completed means matching, done, uploaded, recorded, returned, freed, unless a purge came under it; refused means dead; without failures matching, durable bytes the guard lets through are stored, in the ledger and, if weighed, in the book, and a mismatch, an unacceptable duration or a short escrow is refused with nothing spent |
| `IntentProcessors.IntentProcessor.Clear` | relayer/src/intent/intent.processor.ts:473-565 | only a row whose blob id matches goes on to duration and guard; undisturbed, a mismatch is dead-lettered, unbooked and unspent, and a duration or escrow that will not do is dead-lettered, booked as a skip and unspent |
| `IntentProcessors.IntentProcessor.VerifyBlob` | relayer/src/intent/intent.processor.ts:473-484 | goes on only with a row whose blob id matches the commitment's reference, else the row's, else none; undisturbed, a mismatch leaves exactly this row dead, no WAL spent and nothing booked |
| `IntentProcessors.IntentProcessor.ResolveEpochs` | relayer/src/intent/intent.processor.ts:500-532 | goes on with exactly the committed epochs, one for zero, the default for none; undisturbed, a duration past either cap is refused, booked as a skip and unspent, unless the object is already bought |
| `IntentProcessors.IntentProcessor.ChooseEpochs` | relayer/src/intent/intent.processor.ts:500-532 | the duration the protocol resolves: committed, else read from Sui, else the default; refused only when nothing was uploaded |
| `IntentProcessors.IntentProcessor.Gate` | relayer/src/intent/intent.processor.ts:534-565 | with terms to weigh it lets a spend through only on the guard's own proceeding answer for this size, duration and escrow; undisturbed, it does so whenever that answer proceeds, and otherwise refuses and books a skip |
| `IntentProcessors.IntentProcessor.BuyStorage` | relayer/src/intent/intent.processor.ts:571-599 | the uploaded object is persisted before anything else uses it |
| `IntentProcessors.IntentProcessor.RecordOnSui` | relayer/src/intent/intent.processor.ts:606-634 | the digest, or the marker when Sui already holds the intent, is persisted before the ledger and the bytes are touched |
| `IntentProcessors.IntentProcessor.RecordInLedger` | relayer/src/intent/intent.processor.ts:639-654 | never fails the store; the world's entry and flag are those of the two ledger writes |
| `IntentProcessors.IntentProcessor.ReturnProof` | relayer/src/intent/intent.processor.ts:659-673 | a failed send falls back to confirmation; it throws a post-store error only when both ways fail, and undisturbed always then |
| `IntentProcessors.IntentProcessor.OnReceived` | relayer/src/intent/intent.processor.ts:230-264 | recorded exactly when the row is absent or active, then received with the Sui deadline |
| `IntentProcessors.IntentProcessor.RecoverMissingBytes` | relayer/src/intent/intent.processor.ts:325-368 | at most one sweep at a time, oldest rows first; every candidate is backed off, and holds its bytes afterwards exactly when its blob came, is the committed one and fitted |
| `ByteRecovery.RecoveryBacksOff` | relayer/src/intent/intent.processor.ts:335-361 | a sweep touches its candidates only, keeps them active and leaves each waiting for the backoff |
| `ByteRecovery.RecoveryDelivers` | relayer/src/intent/intent.processor.ts:335-361 | after a sweep each candidate whose blob came with exactly the committed size and blob id, and fitted under the cap in its turn, holds it with its size and blob id, ready to be claimed; every other candidate only waits |
| `IntentProcessors.IntentProcessor.Summary` | relayer/src/settlement/settlement-reconciler.service.ts:73-75 | whatever ran, with the break-even service injected and a non-negative margin no completed intent is booked at a loss and the total is the sum of the nets |
| `ProcessorWorld.ForeignKeepsOwn` | relayer/src/intent/intent.processor.ts:377-411 | no step of another process moves this process's attempts or its book |
| `ProcessorWorld.ClaimStep` | relayer/src/intent/intent.processor.ts:285-303 | claiming one row, with or without starting it, is one protocol step |
| `ProcessorWorld.BooksAreProfitable` | relayer/src/settlement/pnl-ledger.ts:40-81 | with the break-even service injected every entry a process holds nets at least the margin on what it cost |
| `ByteRecovery.RecoveryWithinCap` | relayer/src/intent/intent.processor.ts:335-361 | recovered bytes pass the same cap as delivered ones |
| `OrderIndependence.OrderDoesNotMatter` | relayer/src/staged/staged-intent.store.ts:190-258 | any interleavings and repetitions of one upload and one event end in the same row but for its timestamps, with the upload's bytes, size, blob id and app id and the event's reference, deadline, source chain, epochs and digest |
| `OrderIndependence.DeliveriesMake` | relayer/src/staged/staged-intent.store.ts:190-258 | the row depends only on which of the two kinds arrived |
| `OrderIndependence.AppIdNeverCleared` | relayer/src/staged/staged-intent.store.ts:190-201 | no later delivery clears a recorded app id |
| `OrderIndependence.SuiDeadlineWins` | relayer/src/staged/staged-intent.store.ts:190-201 | no later upload changes the committed deadline |
| `OrderIndependence.SettledTakesNothing` | relayer/src/staged/staged-intent.store.ts:245-258 | a settled row is unchanged by any deliveries |
| `Pricing.QuoteSurvivesPriceMoves` | relayer/src/pricing/quote-engine.ts:92-128 | the quoted escrow passes the guard at any later prices within the buffers, for a guard margin up to the service margin, through rounding; what is quoted and weighed is pinned by the `Charges` rows |
| `Charges.QuotedWhen` | relayer/src/pricing/quote-engine.ts:92-101 | a quote is given exactly when the three prices are positive and no fee is negative |
| `Charges.QuoteCharges` | relayer/src/pricing/quote-engine.ts:104-122 | every quote charges the larger of the minimum and the three buffered fees, written out; the floor flag says exactly that they fell short; the service margin is on what is charged |
| `Charges.QuoteEscrow` | relayer/src/pricing/quote-engine.ts:124-134 | the native escrow is worth what is charged and less than a billionth of a token more; the total is the escrow and both of the user's own fees |
| `Charges.FloorIsCharged` | relayer/src/pricing/quote-engine.ts:119-127 | the native escrow is always worth at least the minimum charge with the service margin on top |
| `Pricing.ProceedCovers` | relayer/src/pricing/break-even-guard.ts:44-89 | the guard proceeds exactly when the escrow is worth the cost plus the margin, and the cost is never negative |
| `Charges.GuardAnswersWhen` | relayer/src/pricing/break-even-guard.ts:44-59 | the guard answers exactly when the three prices are positive and no amount is negative |
| `Charges.GuardWeighsTheFees` | relayer/src/pricing/break-even-guard.ts:61-74 | what it weighs, with units and prices written out: the escrow's worth against WAL cost, return fee and gas, each at its own price, with the margin on top of all three; it proceeds exactly when they are covered |
| `Charges.EachFeeCounts` | relayer/src/pricing/break-even-guard.ts:66-69 | raising any one of the three fees raises the cost by exactly that amount's worth, and no fees cost nothing |
| `Pricing.CoveredNetsMargin` | relayer/src/pricing/break-even-guard.ts:61-74 | a covered spend nets at least margin times cost |
| `Pricing.NativeCoversUsd` | relayer/src/pricing/pricing-math.ts:28-35 | from nine decimals on, the native amount is worth at least the USD it stands for |
| `Charges.NativeIsTight` | relayer/src/pricing/pricing-math.ts:28-35 | from nine decimals on, it is worth less than a billionth of a token more |
| `Pricing.NativeCoversBelowNine` | relayer/src/pricing/pricing-math.ts:28-35 | below nine decimals it is worth that exactly when the rounded sub-units divide evenly |
| `Pricing.TruncatesBelowNine` | relayer/src/pricing/pricing-math.ts:32-34 | a concrete amount that truncates to less than it stands for |
| `StoreEpochs.NeverShortened` | relayer/src/walrus/store-epochs.ts:37-64 | a committed duration is accepted exactly when within both caps, and then stored in full |
| `StoreEpochs.DefaultForLegacyRows` | relayer/src/walrus/store-epochs.ts:37-50 | without a commitment exactly the default is stored, and it is refused exactly above either cap |
| `WalCost.SymbolsArePositive` | relayer/src/walrus/wal-cost.calculator.ts:52-78 | both symbol counts are at least one for every shard count and encoding |
| `WalCost.SymbolSizeIsLeast` | relayer/src/walrus/wal-cost.calculator.ts:80-90 | the symbol size holds the blob, is even for RS2, and no smaller one does |
| `WalCost.ExpansionBound` | relayer/src/walrus/wal-cost.calculator.ts:80-90 | for RS2 twice the sliver bytes is at most nine times the blob plus two symbols' worth |
| `WalCost.CostMonotone` | relayer/src/walrus/wal-cost.calculator.ts:113-151 | a bigger blob for a longer time never costs less |
| `WalCost.LengthSubadditive` | relayer/src/walrus/wal-cost.calculator.ts:92-99 | one encoded blob is no longer than its two encoded parts |
| `WalCost.CostSubadditive` | relayer/src/walrus/wal-cost.calculator.ts:113-151 | one blob never costs more than its two parts stored separately |
| `WalCost.ShardsHeldBack` | relayer/src/walrus/wal-cost.calculator.ts:52-78 | the symbol counts in terms of the most shards that can fail; RedStuff holds back a fifth of those, at most five |
| `WalCost.EncodedWrittenOut` | relayer/src/walrus/wal-cost.calculator.ts:80-99 | each shard's share of the encoded blob: its hashes, the blob id and its two slivers |
| `WalCost.ChargeWrittenOut` | relayer/src/walrus/wal-cost.calculator.ts:101-140 | the charge is for the fewest whole mebibytes that hold the encoded blob, each once for writing and once per epoch for storage |
| `WalCost.OneEpochMore` | relayer/src/walrus/wal-cost.calculator.ts:139-140 | one epoch more costs the storage price of every unit, and nothing for writing |
| `Settlement.PnlLedger.Find` | relayer/src/settlement/pnl-ledger.ts:51-53 | finds an entry exactly when the intent was recorded |
| `Settlement.PnlLedger.Record` | relayer/src/settlement/pnl-ledger.ts:40-49 | first record of an intent wins; a second changes nothing and returns the first |
| `Settlement.PnlLedger.Summary` | relayer/src/settlement/pnl-ledger.ts:59-81 | the counts are those of completed and of skipped entries, the totals the sums over all entries, the net total their difference and the sum of the nets, and profitable books have no negative entry |
| `Settlement.ProfitableIsNeverNegative` | relayer/src/settlement/pnl-ledger.ts:59-81 | with a non-negative margin a profitable book counts no loss |
| `Settlement.SettlementReconciler.RecordCompletion` | relayer/src/settlement/settlement-reconciler.service.ts:32-53 | booking a covered completion keeps the whole book profitable |
| `Settlement.SettlementReconciler.RecordSkip` | relayer/src/settlement/settlement-reconciler.service.ts:55-67 | a skip books nothing collected and nothing spent |
| `RateLimit.FixedWindowLimiter.Hit` | relayer/src/api/rate-limit.ts:36-59 | answers and updates as the specification, and never tracks more keys than the cap |
| `RateLimit.FixedWindowLimiter.Sweep` | relayer/src/api/rate-limit.ts:66-71 | forgets exactly the expired windows, in place, keeping insertion order |
| `RateLimit.FixedWindowLimiter.Evict` | relayer/src/api/rate-limit.ts:42-48 | drops first-inserted keys until a new one fits or none is left |
| `RateLimit.HitKeepsForm` | relayer/src/api/rate-limit.ts:36-59 | the map's keys and order agree after every hit and their number stays within the cap |
| `RateLimit.HitAgrees` | relayer/src/api/rate-limit.ts:36-59 | with the key's window running, or fewer live keys than the cap, one hit answers as the unbounded limiter would, and the two still agree |
| `RateLimit.Refines` | relayer/src/api/rate-limit.ts:36-71 | over any run with a monotone clock and room for the live keys, sweeping and the cap are invisible |
| `RateLimit.LessThanTwice` | relayer/src/api/rate-limit.ts:36-59 | any half-open interval of one window's length admits at most twice a key's fixed limit, less one |
| `RateLimit.LimiterAdmitsLessThanTwice` | relayer/src/api/rate-limit.ts:36-71 | the swept and capped limiter, from empty, keeps the same bound |
| `RateLimit.TwiceLessOneIsReached` | relayer/src/api/rate-limit.ts:36-59 | for every limit of at least one and every window of at least two milliseconds, a run that meets the bound |
| `RateLimit.NoBudgetNoHit` | relayer/src/api/rate-limit.ts:52-57 | a key with no positive limit is never let in |
| `RateLimit.AnswerIsKept` | relayer/src/api/rate-limit.ts:50-58 | `remaining` is exactly how many more hits are let in before `resetInMs` has passed, and from then on a positive limit lets in again |
| `RateLimitMiddleware.Limit` | relayer/src/api/rate-limit.ts:180-211 | lets a request on exactly when every budget charged had room and reports the tightest; else names the first without room and when to retry, the later budgets uncharged |
| `RateLimitMiddleware.RetryAfter` | relayer/src/api/rate-limit.ts:185-185 | the least whole number of seconds, at least one, that outlasts the window |
| `RateLimitMiddleware.PassesWhenEachHasRoom` | relayer/src/api/rate-limit.ts:164-211 | budgets do not interfere: a request passes exactly when each, taken alone, has room |
| `CommitmentCodec.WriteUintBE` | sdk/src/commitment-codec.ts:44-49 | writes the low bytes of the value, most significant first, at the offset and nowhere else |
| `CommitmentCodec.ReadUintBE` | sdk/src/commitment-codec.ts:69-75 | the integer those bytes spell |
| `CommitmentCodec.ReadOfWritten` | sdk/src/commitment-codec.ts:44-75 | reading what was written gives the value modulo its width |
| `CommitmentCodec.WriteOfRead` | sdk/src/commitment-codec.ts:44-75 | writing what was read gives the bytes back |
| `CommitmentCodec.EncodeCommitment` | sdk/src/commitment-codec.ts:52-67 | fails exactly on a blob id that is not 32 bytes, else the 49-byte layout |
| `CommitmentCodec.EncodedLayout` | sdk/src/commitment-codec.ts:52-67 | where each field is, most significant byte first: blob id, size, encoding, epochs, deadline |
| `CommitmentCodec.DecodeCommitment` | sdk/src/commitment-codec.ts:78-91 | fails exactly on a string that is not 49 bytes, else the fields at their offsets |
| `CommitmentCodec.RoundTripWhenInRange` | sdk/src/commitment-codec.ts:52-91 | decode undoes encode exactly on the commitments whose fields fit their widths |
| `CommitmentCodec.EncodeOfDecode` | sdk/src/commitment-codec.ts:52-91 | encode undoes decode on every 49-byte string |
| `CommitmentCodec.EncodedEqual` | sdk/src/commitment-codec.ts:52-67 | two commitments share a wire form exactly when they agree modulo the widths |
| `CommitmentCodec.DeriveIntentId` | sdk/src/commitment-codec.ts:100-117 | hashes the 89-byte preimage; fails exactly on a sender over 32 bytes or a bad blob id |
| `CommitmentCodec.PreimageLayout` | sdk/src/commitment-codec.ts:100-117 | the hashed bytes: commitment, sender right-aligned behind zeros, nonce |
| `CommitmentCodec.PreimageInjective` | sdk/src/commitment-codec.ts:100-117 | two preimages are equal exactly when commitment, padded sender and nonce are, each modulo its width |
| `CommitmentCodec.PaddedEqual` | sdk/src/commitment-codec.ts:93-109 | senders of different lengths meet exactly when one is the other behind zeros |
| `RelayerRetry.WithRelayerRetry` | sdk/src/relayer-http.ts:94-119 | at most maxAttempts calls, all waiting within maxElapsedMs, another call only after a retryable error, and an honest end: a call's own value, its last error, or the abort |
| `RelayerRetry.WaitsShowOnTheClock` | sdk/src/relayer-http.ts:104-117 | however late timers fire, the elapsed time is never less than the waiting asked for |
| `RelayerRetry.RetryAfterWins` | sdk/src/relayer-http.ts:112-114 | a non-negative Retry-After is waited for in full, past the policy's own cap; a negative one is ignored |
| `RelayerRetry.BackoffDoubles` | sdk/src/relayer-http.ts:112-114 | otherwise each wait is twice the one before, from the base on, never past the cap |
| `RelayerRetry.GoesOn` | sdk/src/relayer-http.ts:105-117 | after any number of retryable errors it calls again while another attempt is allowed and the last wait still ends in time |
| `RelayerRetry.UploadBlob` | sdk/src/store-flow.ts:291-327 | success exactly on a 2xx or a 409 from the second attempt on; only transient answers are retried; the first accepted answer within the bounds ends it |
| `RelayerRetry.EndsAtFirst` | sdk/src/relayer-http.ts:104-117 | a loop that may go on until a value ends at the first value |

## Left out

- HTTP controllers, Nest modules, configuration schemas, metrics, error reporting and logging: plumbing around the modelled calls.
- Walrus, Sui, LayerZero, Solana and EVM clients and price feeds: foreign calls, modelled as oracles with any outcome; Sui is modelled only in that it accepts one object per intent and refuses a second.
- Postgres isolation and row locking: each statement is one atomic step on a map from intent id to row.
- The tick's drain, in-process check and row snapshot are one step; the code awaits between them, so a finer interleaving could start from a stale row.
- `IntentProcessors.IntentProcessor.Tick`: runs the stores it started one after another; the protocol in `IntentProtocol` interleaves attempts of one process freely.
- The `world` field of the processor class holds the protocol's history and has no counterpart in the source; `Interleave` takes any enabled steps of other processes from an oracle.
- `IntentRuns.StepOrder`: asks that no purge hit a row an attempt was working on, because the code itself breaks it then (`PurgeCanFinishWithoutObject`).
- `IntentRuns.NoLimbo`: its exclusive-or asks the same (`PurgeCanStrand`).
- `IntentRuns.NoStoreLostOrRewritten`: that the row's digest is the first one is not promised once two attempts could record at once (`MarkerCanReplaceDigest`).
- `Fleet.LedgerCoversStores`: the same.
- `IntentRuns.SpendConservation`: the balance is unconditional; that nothing is overwritten is not promised once two attempts could buy at once (`TimeoutCanBuyTwice`).
- `IntentRuns.NoSecondUpload`: not promised then either.
- `IntentRuns.OneObject`: asks in addition that no row was purged under a working attempt or with its object (`PurgeCanOrphanObject`, `QuietPurgeCanRename`).
- `IntentRuns.OneDigest`: the same, for attempts that could record at once.
- `IntentRuns.EveryProofIsTheRows`: asks that no two attempts could buy at once and no purge came under a working one.
- `IntentRuns.EveryExecutionIsTheRows`: the same.
- `IntentRuns.EveryEntryIsTheRows`: the same, and that no two could record at once.
- `IntentRuns.SendsBounded`: the bound on sends asks that every outcome owed was written before the next attempt started (`ResumingCanSendForever`).
- `IntentRuns.FailureCounts`: the same, and that the attempt's row was not purged since (`ResumingCanMiscount`, `BygoneCanMiscount`).
- `Settlement.SettlementReconciler.RecordCompletion`: is never called for a completion resumed after its upload, so that profit is not in the book (`CompletionCanGoUnbooked`).
- The order in which the three columns of an upload are written: they are one column here, as one statement writes them all.
- IEEE floating point: USD amounts are exact reals, so rounding of doubles is not covered.
- The in-memory P&L ledger starts empty with a process; what an earlier process booked is not carried over.
- `CommitmentCodec.DeriveIntentId`: keccak256 is a parameter, so nothing is claimed about collisions of the hash.
- Empty strings: the code treats an empty id or app id as absent in places; a present value here is never empty-checked.
- Eviction order of the rate limiter as "oldest window first": refreshing an expired key keeps its old place, so only the bound and the agreement are proved.
- The limiter's clock may be read at different times for the budgets of one request; each budget carries its own time, and agreement asks that they do not go back.
- Ingest's other checks (known, not executed, not expired, not oversized): the size and the recomputed blob id it admits are modelled, the rest decides whether bytes arrive at all.
- Client IP resolution, bypass keys, which routes are counted, and app id parsing: header and string handling.
- `RelayerRetry.WithRelayerRetry`: parsing of the `Retry-After` header is not modelled, the clock is assumed not to go back, and delays are whole milliseconds.
- The lifecycle feed, the Solana return worker, store wake-ups, shutdown drain and WAL top-up: they neither guard nor order the modelled steps.
- The two encodings behind `blobIdMatches` (base64url against a hex field) and the blob id the encoder computes of some bytes are functions the configuration gives; that they are held against the right values, and what follows, is modelled.
