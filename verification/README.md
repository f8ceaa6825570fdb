# Verified model of controlled payments, catalog publication and segment streaming

This Dafny project models the parts of the repository where a mistake costs money or serves the
wrong bytes, and proves what they promise over every run.

- **The payment gateway.** The durable journal, the controlled signer and the upload coordinator.
  `Ledger` gives each journal transaction as a function on the tables; `JournalStore.Journal` is the
  object whose methods update the tables, each proved to compute that function. `Gateway` is the
  process around it as a step machine: requests, the steps of every task in any interleaving,
  the chain, and restarts that lose everything but the journal and the chain. An event that is not
  enabled changes nothing, so *every* sequence of events is a run. Errors and failures fall where the
  code lets them: an error or a deadline between any two steps up to the final write of a task, that
  write lost, a resumed task's completion committed but cut off before its answer, a dropped caller
  after admission, a restart at any point. `ControlledSigner` is `pay` with its loops over the
  journal, each statement matched by a step of that machine. `GatewayTheorems`, `ApprovalLife` (what a
  closed approval can no longer do), `GatewayEnds` (how uploads end and are taken up again) and
  `Allowances` (the payment token) are what holds over every run.
- **The admin service beside it.** `Jobs` and `JobTables.JobTable` are the durable job lease;
  `Services` joins the admin database and the gateway by messages that may be lost, repeated,
  delayed and reordered, under one clock. `Catalog` and `CatalogTables.CatalogTable` are catalog
  publication on top of both; `FailedJobs`, `DeclinedQuotes` and `OneLiveJob` are what failures leave
  behind; `FinalQuotes` and `Budget` are the caps and what they are enough for.
- **The streaming service.** The byte-bounded segment cache, the shared fetch of a segment, and
  manifests and playlists.

`dafny verify dfyconfig.toml` checks the whole project.

## How things are represented

- A transaction or a single statement of either database is one atomic step. Its clock reading is
  one value, that of the statement (the code reads the clock just before it gets the writer lock). A
  failed transaction leaves the tables as they were.
- SHA-256 digests (the content digest, the upload ID) are free constructors, hence injective. The
  lease key is the real string `job:owner:generation`; its injectivity for a fixed job is proved.
- Amounts in the tables are numbers; their decimal text, which the caps and the JSON contract
  carry, is modelled with its parser, and the two are proved inverse. Sums are checked against
  `u128` where the code checks them.
- `TxRow.charge` is a history variable: the journal keeps a receipt, not the settled amounts. No
  branch reads it. `Gateway.World.origins` (which run and call reserved a row), `Services.claims`,
  `Services.writes`, `Catalog.jobOf` and `Catalog.published` are history in the same sense.
- The upload of `reserve` is admitted under the approval it charges. The journal does not check
  this, so it is a precondition of `Journal.Reserve`; `GatewayInvariant.WorldOk` discharges it, since
  one `approval` is passed to both `admit` and `pay`.
- The payment token stands beside the gateway in `Allowances.Purse`: an allowance per network, replaced
  by a token approval and used up by payments, that refuses what it does not cover. `Catalog.confirmed`
  is history too.
- Assumptions about what is outside, all visible as preconditions or in `Apply`: the SDK's intent
  total is the sum of its payments (`Signer.Consistent`); a successful token allowance and a reverted
  call move no storage tokens, and a successful wave chunk moves its sum (`Gateway.ChainAllows`); no
  mined transaction of an approval costs more than its reserved bounds (`GatewayTheorems.WithinBounds`,
  used by `MoneySafety` only, for that approval's caps: `OverchargeStopsSigning` says what happens
  without it, and `Allowances.StorageCapHolds` that the storage cap holds all the same).
- Strings of the streaming service are bytes. A duration is an exact number or not finite.

## What turned out to be false

- **Catalog exclusion.** At most one catalog approval should be in draft, approved, uploading or
  payment recovery. The write at `crates/rust_admin/src/jobs/lease_worker.rs:489-497` does not look
  at the state it replaces. When a finalization job fails for good *after* its approval is already
  complete, and another approval is under way, the completed one goes back to
  `payment_recovery_required` beside it. `CatalogTheorems.LateFailureHappens` is such a run: the worker
  dies between completing and marking the job succeeded, a new quote is drafted, the lease runs out,
  the job is claimed again, and on that last attempt the payment lease cannot be activated
  (`crates/rust_admin/src/jobs/lease_worker.rs:204`), which comes before the look at the approval.
  `StepExclusive` proves that exclusion is broken by exactly these failures, `RunExclusive` that it
  holds over every run without one, and `LateFailureIsReclaimed` that every one of them is of a later
  claim than the one that completed the approval, before that claim has read it.
- **A completed upload's row can still change.** A resumed task writes its completion inside its own
  deadline (`crates/antd_service/src/payments/mod.rs:511-571`). When the deadline falls after that
  write has committed and before its answer, the task goes on to the recovery write, and `finish`
  does not look at the state it replaces (`crates/antd_service/src/payments/journal.rs:367-381`): the
  stored result is gone and the approval is paused. `LateRecovery.LateRecoveryHappens` is such a run
  from an empty gateway; `GatewayTheorems.CompleteStep` proves that a step changes a completed row if
  and only if it is that recovery write, and `ResultIsFinal` that the row never changes again once no
  task is at work on the upload, which is so from the moment any task answers with a result
  (`AnsweredResultIsFinal`).
- **A cache hit is not always the bytes last inserted.** `SegmentCache::insert` returns before it
  removes the old entry when the new data is larger than the whole cache.
  `SegmentCacheRuns.OversizedStoreLeavesOldBytes` is an instance; `HitIsLastStored` proves that the hit
  is the last store exactly when that store fits the cache.

## Model

| member | source | states |
|---|---|---|
| Amounts.AmountRoundTrip | crates/common/src/payments.rs:25-31 | a stored amount below 2^128 reads back as itself |
| Amounts.AmountIsDecimal | crates/common/src/payments.rs:25-31 | text is read as n exactly when it is n's decimal digits behind leading zeros, and n fits |
| Amounts.OnlyZeroIsWrittenZero | crates/antd_service/src/payments/journal.rs:386-388 | comparing the stored text with '0' asks whether the reserved storage is zero |
| Amounts.LeaseKeyInjective | crates/common/src/payments.rs:153-157 | for one job, equal keys mean equal owner and generation, whatever characters the owner holds |
| Amounts.LeaseKeyNamesJob | crates/common/src/payments.rs:153-157 | equal keys of UUID-named jobs name the same job |
| JournalStore.Journal.Open | crates/antd_service/src/payments/journal.rs:122-130 | the recovery statements, in order, leave the tables `Initialize` gives, and the invariant |
| JournalStore.Journal.Approve | crates/antd_service/src/payments/journal.rs:133-159 | the whole new tables and the reply, including a rebound or invalid approval |
| JournalStore.Journal.CancelUnpaid | crates/antd_service/src/payments/journal.rs:161-190 | the whole new tables and the reply; the lease, the guard and the transaction check |
| JournalStore.Journal.Admit | crates/antd_service/src/payments/journal.rs:192-223 | the whole new tables and whether the upload is fresh, with every refusal |
| JournalStore.Journal.Reserve | crates/antd_service/src/payments/journal.rs:227-277 | the whole new tables or the first failing check in order, with the two UNIQUE constraints |
| JournalStore.Journal.RecordSigned | crates/antd_service/src/payments/journal.rs:279-297 | the signed hash on exactly its own reserved row, or the failing check |
| JournalStore.Journal.Settle | crates/antd_service/src/payments/journal.rs:299-344 | the released budget and settled row; the two checked subtractions never fail |
| JournalStore.Journal.Finish | crates/antd_service/src/payments/journal.rs:346-384 | the final upload row, recovery without a transaction turned retryable, and the paused approval |
| JournalStore.Journal.Activate | crates/antd_service/src/payments/journal.rs:430-447 | the lease row written only for a renewal by its owner or a newer generation of the same job |
| JournalStore.Journal.CheckStorage | crates/antd_service/src/payments/journal.rs:449-463 | passes exactly when the bound fits the storage cap of a valid approval |
| LedgerInvariant.InitializeKeeps | crates/antd_service/src/payments/journal.rs:122-130 | a restart keeps the state invariant: cancelled approvals have no transaction, paused ones have one, uploads match theirs |
| LedgerInvariant.InitializeIdempotent | crates/antd_service/src/payments/journal.rs:122-130 | a second initialization changes nothing, and no transaction or budget is ever touched |
| LedgerInvariant.InitializeRestartable | crates/antd_service/src/payments/journal.rs:122-130 | stopping between the recovery statements and starting again ends in the same tables |
| LedgerInvariant.ApproveKeeps | crates/antd_service/src/payments/journal.rs:133-159 | approving keeps the state invariant |
| LedgerInvariant.CancelKeeps | crates/antd_service/src/payments/journal.rs:173-189 | cancelling keeps it: only an approval without transactions is ever cancelled |
| LedgerInvariant.AdmitKeeps | crates/antd_service/src/payments/journal.rs:192-223 | admitting keeps it: a preparing upload has no transaction |
| LedgerInvariant.ReserveKeeps | crates/antd_service/src/payments/journal.rs:227-277 | reserving keeps conservation, both caps, distinct nonces and one unresolved transaction a network |
| LedgerInvariant.RecordSignedKeeps | crates/antd_service/src/payments/journal.rs:279-297 | signing keeps hashes distinct on a network and the rest of the invariant |
| LedgerInvariant.SettleKeeps | crates/antd_service/src/payments/journal.rs:299-344 | after settling, reserved totals are again the sum of actual-or-reserved amounts |
| LedgerInvariant.SettleNeverUnderflows | crates/antd_service/src/payments/journal.rs:319-329 | the two subtractions' failure branch is unreachable |
| LedgerInvariant.SettleReplay | crates/antd_service/src/payments/journal.rs:299-344 | settling a settled transaction again, with any amounts, changes nothing |
| LedgerInvariant.FinishKeeps | crates/antd_service/src/payments/journal.rs:346-384 | finishing keeps it: an approval is paused only with a transaction |
| LedgerInvariant.EvolvesTransitive | crates/antd_service/src/payments/journal.rs:122-447 | rows are never removed or rebound, settled rows and non-open approvals never change, generations never fall, over any number of steps |
| LedgerInvariant.SupersededCannotAct | crates/antd_service/src/payments/journal.rs:466-486 | under a superseded or expired key nothing is admitted, reserved, signed or cancelled |
| Signer.CallsSum | crates/antd_service/src/payments/signer.rs:109-201 | the bound checked before the first call is the sum of the bounds reserved call by call |
| Signer.AllowanceCoversCalls | crates/antd_service/src/payments/signer.rs:115-123 | the calls begin with the one allowance, for exactly the sum reserved by all calls after it, or reserve nothing |
| Signer.ChunksPartition | crates/antd_service/src/payments/signer.rs:146-148 | chunking keeps every payment once, in order, at most 256 to a call |
| Signer.CheckedTotalIsSum | crates/antd_service/src/payments/signer.rs:368-383 | the merkle bound is the sum of the batch estimates and fails exactly when that leaves u128 |
| Signer.ProofMapExact | crates/antd_service/src/payments/signer.rs:186-190 | a quote hash maps to the last transaction whose chunk paid it, and to nothing else |
| ControlledSigner.SignCall | crates/antd_service/src/payments/signer.rs:280-347 | an error before the reservation leaves the journal as it was; otherwise reserve, sign and record in that order is a run of the gateway machine |
| ControlledSigner.Transact | crates/antd_service/src/payments/signer.rs:280-365 | then broadcast, receipt and settle: the run ends at the next call, with the accepted receipt, or in the failing class |
| ControlledSigner.PayWave | crates/antd_service/src/payments/signer.rs:145-193 | the loop over chunks makes every call in order and accumulates exactly the totals and proofs |
| ControlledSigner.PayMerkle | crates/antd_service/src/payments/signer.rs:194-275 | the same for the loop over batches; a receipt without its one matching event is never settled |
| ControlledSigner.Pay | crates/antd_service/src/payments/signer.rs:102-278 | the whole of `pay`: a run of the machine past its last call with its totals and proofs, or a failing task that has released the lock |
| GatewayInvariant.StartOk | crates/antd_service/src/payments/mod.rs:88-116 | the empty gateway satisfies the gateway invariant |
| GatewaySteps.UploadStep | crates/antd_service/src/payments/mod.rs:185-219 | admission under the running map keeps it, also when the caller leaves before the task is spawned |
| GatewaySteps.BeginStep | crates/antd_service/src/payments/signer.rs:109-116 | taking the lock and checking storage establishes that all of this run's calls fit the cap |
| GatewaySigning.ReserveStepKept | crates/antd_service/src/payments/signer.rs:331-342 | reserving keeps rows of an upload in one run, in call order, and the rest of the run within the cap |
| GatewaySigning.SignStepKept | crates/antd_service/src/payments/signer.rs:343-347 | recording the hash keeps every broadcast reference journaled |
| GatewaySigning.SettleStepKept | crates/antd_service/src/payments/signer.rs:164-190 | settling keeps the running totals equal to what the chain charged |
| GatewaySigning.FinishStepKept | crates/antd_service/src/payments/mod.rs:237-277 | the final write stores only the receipt of a fully settled upload, or loses the write |
| GatewaySigning.LoseCompletionKept | crates/antd_service/src/payments/mod.rs:511-580 | a resumed task whose completion write fails, or commits unheard before the deadline, turns to recovery and keeps it |
| GatewaySigning.RestartKept | crates/antd_service/src/payments/journal.rs:122-130 | a restart that loses tasks, sessions and the lock keeps the invariant |
| GatewaySigning.StepKeeps | crates/antd_service/src/payments/mod.rs:185-590 | every event keeps the gateway invariant |
| GatewaySigning.RunKeeps | crates/antd_service/src/payments/mod.rs:185-590 | so does every run, from any state that satisfies it |
| GatewayTheorems.RunForward | crates/antd_service/src/payments/journal.rs:122-447 | over every run nothing durable is lost or rebound and the clock and chain only grow |
| GatewayTheorems.MoneySafety | crates/antd_service/src/payments/journal.rs:227-344 | over every run, if no mined transaction of an approval exceeds its reserved bounds, everything ever charged under it stays within its two caps |
| GatewayTheorems.OnlyJournaledBytesAreSent | crates/antd_service/src/payments/signer.rs:343-354 | whatever was broadcast or mined is one journaled row, unique, signed before it was sent |
| GatewayTheorems.OneRunPaysOnce | crates/antd_service/src/payments/mod.rs:205-291 | all transactions of an upload come from one run of `pay`, each call at most once |
| GatewayTheorems.NoSecondRun | crates/antd_service/src/payments/mod.rs:205-219 | once an upload has a transaction no later request is admitted or starts a task, across restarts |
| GatewayTheorems.StorageNeverRunsOut | crates/antd_service/src/payments/signer.rs:109-276 | after the check, no reservation of that run of `pay` is refused for storage |
| Allowances.PurseRunIsGatewayRun | crates/antd_service/src/payments/signer.rs:118-133 | a run beside the payment token, which refuses payments above its allowance, is a run of the gateway |
| Allowances.RunFunds | crates/antd_service/src/payments/signer.rs:118-276 | every such run keeps what is left of the allowance in step with the one run of `pay` under way |
| Allowances.AllowanceNeverRunsOut | crates/antd_service/src/payments/signer.rs:118-123 | every payment of a run of `pay` finds an allowance that covers it and all payments after it, so none reverts for want of one |
| Allowances.MovedWithinAllowance | crates/antd_service/src/payments/signer.rs:118-123 | the chain never moves more for an upload than the allowance its run set, whatever its calls are charged |
| Allowances.StorageCapHolds | crates/antd_service/src/payments/signer.rs:116-123 | over every run the storage cap of an approval holds whatever the contract charges for a batch that was estimated at anything |
| GatewayTheorems.ReceiptIsWhatWasCharged | crates/antd_service/src/payments/mod.rs:343-358 | a stored result equals the sums the chain charged, and every transaction of the upload is settled |
| GatewayTheorems.ProofsPointAtPayments | crates/antd_service/src/payments/signer.rs:145-193 | each proof names a settled, successful transaction of this upload and run that paid that quote |
| GatewayTheorems.CompleteStep | crates/antd_service/src/payments/journal.rs:346-384 | a step changes a completed upload's row if and only if it is the recovery write of a resumed task that had written its completion, and then the result is gone |
| GatewayTheorems.ResultIsFinal | crates/antd_service/src/payments/mod.rs:206-208 | with no task at work on a completed upload, its row never changes again and no task is ever started for it |
| GatewayTheorems.AnsweredResultIsFinal | crates/antd_service/src/payments/mod.rs:250-258 | a result that a task answers with, resumed or not, is stored and final from its write on |
| GatewayTheorems.ResultStands | crates/antd_service/src/payments/mod.rs:565-580 | over every run without an overwriting recovery write a completed row stands, whatever tasks are at work |
| GatewayEnds.FailureIsClassified | crates/antd_service/src/payments/mod.rs:253-276 | a failing task leaves its upload partial, asking for approval, in recovery or retryable exactly by its error class and by what was reserved |
| GatewayEnds.ReserveRefusals | crates/antd_service/src/payments/journal.rs:227-262 | a refused reservation asks for a new approval exactly when the approval is cancelled or a cap does not cover the call, after the checks before it; any other refusal leads to recovery |
| GatewayEnds.RefusedCall | crates/antd_service/src/payments/mod.rs:291-315 | and the task turns to its final write with that class, the lock free and nothing in the journal changed |
| GatewayEnds.AskedAgainOnlyIfUnpaid | crates/antd_service/src/payments/mod.rs:253-268 | over every run an upload that asks for a new approval has never reserved a storage payment |
| GatewayEnds.RefusedBeforePaying | crates/antd_service/src/payments/signer.rs:115-116 | an upload above what is left of its cap is refused before any reservation: it asks for approval, and approval and rows stay as they were |
| GatewayEnds.RestartDecides | crates/antd_service/src/payments/journal.rs:122-130 | after a restart nothing is in flight: paid uploads are in recovery with their approval paused, unpaid ones retryable, others untouched |
| GatewayEnds.UnpaidIsRetried | crates/antd_service/src/payments/journal.rs:205-222 | an upload cut off before it paid is admitted again after a restart, under any live lease of its open approval |
| GatewayEnds.SessionsAreFew | crates/antd_service/src/payments/mod.rs:433-480 | over every run at most four uploads are retained, none for more than an hour, and a session that has run out starts nothing |
| LateRecovery.LateRecoveryOverwrites | crates/antd_service/src/payments/mod.rs:511-580 | every paid upload stored in part can complete with its receipt and then lose it, its approval paused |
| LateRecovery.LateRecoveryHappens | crates/antd_service/src/payments/mod.rs:511-580 | such a run from an empty gateway, with a paid allowance and a paid chunk |
| GatewayTheorems.LeaseWriters | crates/antd_service/src/payments/journal.rs:430-447 | only an activation writes a lease |
| GatewayTheorems.SupersededForever | crates/antd_service/src/payments/journal.rs:430-477 | a superseded or expired key stays so in every later state |
| GatewayTheorems.SupersededNeverPays | crates/antd_service/src/payments/journal.rs:466-486 | in every later state no request or task step under that key writes anything |
| GatewayTheorems.CancelledNeverPays | crates/antd_service/src/payments/journal.rs:161-190 | after a confirmed cancellation no transaction exists under the approval, now or ever |
| ApprovalLife.ClosedNeverPays | crates/antd_service/src/payments/journal.rs:488-501 | over every run a paused, cancelled or expired approval stays closed, gets no transaction and no new upload, and every request under it is refused |
| ApprovalLife.PausedNeverSpends | crates/antd_service/src/payments/journal.rs:367-381 | once an upload of a quote is written as needing recovery its approval is paused, and nothing else of the quote is ever paid for |
| ApprovalLife.ExpiredNeverBegins | crates/antd_service/src/payments/journal.rs:449-463 | an upload whose approval runs out while it prepares fails before it takes the signer's lock, in every later state |
| ApprovalLife.GuardStopsEverything | crates/antd_service/src/payments/journal.rs:227-237 | while the restore guard is set no run reserves a transaction or revokes an approval as unpaid |
| ApprovalLife.StoredIsDefinite | crates/common/src/payments.rs:40-79 | over every run each stored approval names its objects, network and caps and closes within a day, each lease ends within an hour, and nonces fit 63 bits |
| ApprovalLife.ADayLaterNothingIsOpen | crates/common/src/payments.rs:45-48 | a day later every approval stored before is closed |
| ApprovalLife.DigestBindsContents | crates/common/src/payments.rs:33-37 | stored approvals with one digest are of one network and permit the same objects |
| GatewayTheorems.UnresolvedBlocks | crates/antd_service/src/payments/journal.rs:251-261 | while a transaction is unresolved its network's signing is disabled and every reservation fails |
| GatewayTheorems.OverchargeStopsSigning | crates/antd_service/src/payments/journal.rs:314-317 | a receipt above its reservation is never settled and disables that network's signing for good |
| FinalQuotes.CapTotalIsSum | crates/rust_admin/src/pipeline/final_quote.rs:214-228 | the checked fold is the sum, failing exactly on a malformed amount or an overflowing sum |
| FinalQuotes.BuiltCaps | crates/rust_admin/src/pipeline/final_quote.rs:197-245 | an approval that is built caps storage and gas at the sums of its quotes and permits exactly the quoted objects |
| Budget.CommitmentStep | crates/antd_service/src/payments/signer.rs:109-276 | only the start of a run of `pay` raises what an upload holds or will hold, and then to its checked bound |
| Budget.CommitmentWithinQuote | crates/rust_admin/src/pipeline/publish.rs:55-75 | over every run each object's held and outstanding storage stays within its own quote |
| Budget.PermittedRun | crates/antd_service/src/payments/journal.rs:192-223 | every admitted upload is of a content its approval lists |
| Budget.BudgetSuffices | crates/antd_service/src/payments/journal.rs:449-463 | if objects are prepared within their quotes, no object is refused for storage, in any order, with any unpaid retries |
| Budget.PlannedUploadsFit | crates/rust_admin/src/pipeline/final_quote.rs:197-238 | the same for an approval as the final quote builds it |
| JobTables.JobTable.AcquireNextJob | crates/rust_admin/src/jobs/lease_worker.rs:127-194 | claims the claimable job first by run time then creation, with one more attempt, or none if none is claimable |
| JobTables.JobTable.RenewLease | crates/rust_admin/src/jobs/lease_worker.rs:562-568 | extends the lease exactly when the claim still owns the job |
| JobTables.JobTable.UpdatePaymentLease | crates/rust_admin/src/jobs/lease_worker.rs:595-627 | the message sent is the machine's activation, floored to the job's own lease, and an error exactly when ownership is lost |
| JobTables.JobTable.MarkSucceeded | crates/rust_admin/src/jobs/lease_worker.rs:334-389 | releases the job exactly when the claim still owns it, forgets a ready video's local files and answers with the directory to remove |
| JobTables.JobTable.MarkInterrupted | crates/rust_admin/src/jobs/lease_worker.rs:391-419 | requeues the job of this worker, whatever the attempt |
| JobTables.JobTable.MarkFailed | crates/rust_admin/src/jobs/lease_worker.rs:421-559 | the job, catalog approval and video after a final failure with or without the gateway's answer, or the requeued job |
| JobTables.JobTable.RecoverInterrupted | crates/rust_admin/src/jobs/recovery.rs:25-46 | requeues exactly the running rows without a live lease, and counts them |
| JobTables.ConfirmedFailureIsARun | crates/rust_admin/src/jobs/lease_worker.rs:461-524 | a failure whose cancellation is confirmed is four steps of the two services |
| JobTables.UnansweredFailureIsARun | crates/rust_admin/src/jobs/lease_worker.rs:461-524 | one whose answer is lost is two of them |
| JobTables.RetryDelayDoubles | crates/rust_admin/src/jobs/scheduling.rs:116-119 | the wait before a retry doubles from half a minute to a quarter of an hour |
| FailedJobs.PaidUploadRecovers | crates/rust_admin/src/jobs/lease_worker.rs:500-522 | a video whose approved quote has a transaction is left in recovery by every final failure of its upload, whatever the error or the answer |
| FailedJobs.FailedVideoStates | crates/rust_admin/src/jobs/lease_worker.rs:500-533 | exactly which final failures leave a video in error, asking for approval, or in recovery; no other video changes |
| FailedJobs.UnconfirmedRetryRecovers | crates/rust_admin/src/jobs/lease_worker.rs:434-441 | a retry that asks for approval without a confirmed cancellation leaves video and catalog in recovery |
| FailedJobs.UnpaidIsConfirmed | crates/antd_service/src/payments/journal.rs:161-190 | the gateway confirms a cancellation exactly for a live lease of an approval without transactions while no restore guard is set, and revokes it |
| FailedJobs.UnpaidFailureMayBeQuotedAgain | crates/rust_admin/src/jobs/lease_worker.rs:444-497 | a failure of a worker that has paid nothing leaves video and catalog free for a new quote when the gateway answers in time |
| FailedJobs.RunClaimed | crates/rust_admin/src/jobs/lease_worker.rs:595-627 | every activation ever sent is that of a claim |
| FailedJobs.CurrentClaimTakesOver | crates/antd_service/src/payments/journal.rs:430-447 | the current claim takes the gateway's lease over from any earlier claim; the one activation refused renews a lease that has run out |
| ServicesTheorems.RunKeeps | crates/rust_admin/src/jobs/lease_worker.rs:127-627 | every run of both services keeps the joint invariant |
| ServicesTheorems.GateRun | crates/antd_service/src/payments/mod.rs:185-590 | the gateway's part of such a run is a run of the gateway, so all gateway theorems hold in it |
| ServicesTheorems.ReclaimIsFenced | crates/rust_admin/src/jobs/lease_worker.rs:127-194 | when a job lease has expired every stored gateway lease of the job has too, and every activation in flight is refused |
| ServicesTheorems.OldAttemptsNeverPay | crates/rust_admin/src/jobs/lease_worker.rs:595-627 | from then on no key of that or an earlier attempt holds any approval's lease or writes anything, in any delivery order |
| ServicesTheorems.ClaimedOnce | crates/rust_admin/src/jobs/lease_worker.rs:127-194 | claims of a job carry strictly increasing attempts |
| OneLiveJob.RunUnique | crates/rust_admin/migrations/0003_payment_approvals.sql:73-92 | over every run at most one finalization and one catalog publication, and one job of a kind for a video, are queued or running |
| ServicesTheorems.WritesInOrder | crates/rust_admin/src/db.rs:38-62 | fenced writes of a job commit in claim order, each by a real claim |
| ServicesTheorems.LapsedClaimIsInert | crates/rust_admin/src/db.rs:38-52 | once a claim is superseded or out of time, no call of it that reads the clock from then on changes anything, ever |
| ServicesTheorems.RequotableOnlyIfConfirmed | crates/rust_admin/src/jobs/lease_worker.rs:486-533 | approval_required is left only after a confirmed cancellation; a lost or negative answer leaves recovery |
| ServicesTheorems.SafeRequote | crates/rust_admin/src/jobs/lease_worker.rs:461-524 | a quote left in approval_required has no transaction at the gateway and never will |
| CatalogTables.CatalogTable.Prepare | crates/rust_admin/src/catalog/payments.rs:98-113 | the committed draft, the superseded drafts, or nothing when the revision moved or a payment is pending |
| CatalogTables.CatalogTable.Approve | crates/rust_admin/src/catalog/payments.rs:135-165 | the approved quote with its one job, or nothing, for every refusal |
| CatalogTables.CatalogTable.Finalize | crates/rust_admin/src/catalog/payments.rs:193-231 | each fenced write happens exactly when the claim still owns its job and, to complete, the revision stands; completing writes the snapshot row |
| CatalogTables.CatalogTable.RefreshSnapshot | crates/rust_admin/src/catalog/sync.rs:105-143 | the row becomes the catalog as it is now, still to be paid for, beside the addresses of the row it replaces |
| CatalogTables.CatalogTable.RestoreSnapshot | crates/rust_admin/src/catalog/payments.rs:251-272 | the file becomes the snapshot row as it is under the writer lock, if there is one |
| CatalogTables.CatalogTable.Resume | crates/rust_admin/src/catalog/payments.rs:288-304 | requeues the latest paused quote's own failed job, or nothing exactly when none can be |
| CatalogTheorems.RunKeeps | crates/rust_admin/src/catalog/payments.rs:29-310 | every run keeps each approval's state in step with its one job |
| CatalogTheorems.PaidAsConfirmed | crates/rust_admin/src/catalog/payments.rs:141-155 | over every run whatever is paid for is a plan whose own caps were confirmed, at its own revision, and accepted by the gateway |
| CatalogTheorems.OtherCapsRefused | crates/rust_admin/src/catalog/payments.rs:147-152 | confirming other caps, or a plan the catalog has moved past, changes nothing |
| CatalogTheorems.ClearedOnlyWhenCurrent | crates/rust_admin/src/catalog/payments.rs:181-191 | a claim goes on to pay only after reading its own approval approved or uploading, at the revision it was quoted at |
| DeclinedQuotes.DeclinedNeverPaid | crates/rust_admin/src/jobs/lease_worker.rs:444-497 | over every run a catalog quote left asking for a new approval is revoked at the gateway, has no transaction and never gains one |
| CatalogTheorems.StepExclusive | crates/rust_admin/src/catalog/payments.rs:275-286 | a step breaks the exclusion of active approvals if and only if it is a late failure |
| CatalogTheorems.RunExclusive | crates/rust_admin/src/catalog/payments.rs:99-113 | over every run without late failures at most one approval is active |
| CatalogTheorems.LateFailureHappens | crates/rust_admin/src/jobs/lease_worker.rs:489-497 | a run of eleven steps from an empty system, through a job claimed again after its completion, that ends with two active approvals |
| CatalogTheorems.LateFailureIsReclaimed | crates/rust_admin/src/jobs/lease_worker.rs:44-100 | over every run a late failure is reported by a later claim of the job than the one that completed its approval, and before it has read the approval |
| CatalogTheorems.PausedCanResume | crates/rust_admin/src/catalog/payments.rs:288-304 | while nothing else of the catalog is under way, a paused approval's original job is there and is queued again under the same approval |
| CatalogTheorems.PublishedInOrder | crates/rust_admin/src/pipeline/publish.rs:79-91 | over every run snapshots, from finalizations, video uploads and refreshes alike, commit in the order of the catalogs their documents were built from, and none built before a video was published follows it |
| CatalogTheorems.FileNeverGoesBack | crates/rust_admin/src/catalog/payments.rs:237-272 | the catalog file is always a committed snapshot and never goes back to an older catalog or older addresses, whoever restores it and whenever |
| CatalogTheorems.AddressesAreLastPaid | crates/rust_admin/src/catalog/sync.rs:116-133 | over every run the addresses in each committed row are those of the documents last stored and paid for before it, and never name a catalog newer than the documents beside them |
| CatalogTheorems.VideoIsPublished | crates/rust_admin/src/pipeline/publish.rs:77-91 | while the claim owns its job and the catalog is the one quoted, the video turns ready with its catalog published in one step; otherwise nothing changes |
| CatalogTheorems.CatalogRunIsServicesRun | crates/rust_admin/src/catalog/payments.rs:29-310 | a catalog run is a run of both services, so fencing and safe re-quoting hold in it |
| SegmentCaches.SegmentCache.Get | crates/rust_stream/src/cache.rs:77-94 | the hit, the refreshed order or the evicted expired entry, and the eviction count |
| SegmentCaches.SegmentCache.Insert | crates/rust_stream/src/cache.rs:96-114 | the whole new content after pruning, replacing and evicting, and the eviction count |
| SegmentCaches.SegmentCache.EvictToLimit | crates/rust_stream/src/cache.rs:133-140 | the loop leaves what `Trimmed` gives, with the byte counter exact |
| SegmentCaches.SegmentCache.PruneExpired | crates/rust_stream/src/cache.rs:142-156 | at most 64 expired entries go, from the front |
| SegmentCaches.SegmentCache.Snapshot | crates/rust_stream/src/cache.rs:158-165 | the bytes reported are the sum of what is resident and within the limit |
| SegmentCaches.TrimmedIsShortest | crates/rust_stream/src/cache.rs:133-140 | eviction to the limit removes the shortest least-recently-used prefix that lets the rest fit |
| SegmentCaches.InsertedKeeps | crates/rust_stream/src/cache.rs:96-114 | an insert keeps addresses distinct and the total within the limit |
| SegmentCaches.OwnInsertStays | crates/rust_stream/src/cache.rs:96-114 | an accepted insert is the most recent entry and is never evicted by itself |
| SegmentCaches.EvictedConserves | crates/rust_stream/src/cache.rs:96-156 | entries before and new are entries left and evicted; a replaced entry is neither new nor evicted |
| SegmentCaches.LookupDropsExpired | crates/rust_stream/src/cache.rs:77-94 | after a lookup its address has no expired entry, and every other entry is kept |
| SegmentCaches.StorePrunesFirst | crates/rust_stream/src/cache.rs:96-100 | a store, taken or refused, keeps nothing that its pruning of at most 64 expired entries removes |
| SegmentCacheRuns.HitIsLastAccepted | crates/rust_stream/src/cache.rs:77-114 | over every run a hit is the last accepted store of its address and is within its time to live |
| SegmentCacheRuns.HitIsLastStored | crates/rust_stream/src/cache.rs:96-100 | a hit is the last store if and only if that store was not larger than the cache |
| SegmentCacheRuns.OversizedStoreLeavesOldBytes | crates/rust_stream/src/cache.rs:96-100 | an oversized store that leaves the old bytes to be served |
| SegmentCacheRecency.HoldsLongestFit | crates/rust_stream/src/cache.rs:77-140 | within one time to live the cache holds the longest end of the recency list that fits, where requests for data larger than the cache leave no trace |
| SegmentCacheRecency.LargerCacheContainsSmaller | crates/rust_stream/src/cache.rs:77-140 | so a larger cache never misses where a smaller one hits, as long as all data requested fits the smaller |
| SegmentCacheRecency.LargeDataBreaksInclusion | crates/rust_stream/src/cache.rs:96-101 | without that a larger cache can miss: data that only it can hold pushes out what the smaller keeps |
| SingleFlight.RunKeeps | crates/rust_stream/src/hls.rs:359-423 | every run keeps the map, the tasks, the slots and the answers consistent |
| SingleFlight.OneTaskPerAddress | crates/rust_stream/src/hls.rs:369-404 | at most one task works on an address, and at most 16 tasks exist |
| SingleFlight.JoinersShareOneFetch | crates/rust_stream/src/hls.rs:369-375 | requests for an address being fetched join that fetch without a slot or a new task, and all get its reply |
| SingleFlight.FetchTakesOneSlot | crates/rust_stream/src/hls.rs:375-404 | another address is fetched by one new task while a slot is free, and is refused at once otherwise with nothing changed |
| SingleFlight.RunFromIdle | crates/rust_stream/src/hls.rs:359-423 | both hold after any run of a service that starts with nothing in flight |
| SingleFlight.RemovedOnlyByItsOwn | crates/rust_stream/src/hls.rs:395-420 | an entry leaves only by its own task after publishing or by its own waiter after that task died |
| SingleFlight.AnswersAreTheTasks | crates/rust_stream/src/hls.rs:407-422 | a waiter's answer is its channel's published result, or the stop error of a task that died |
| SingleFlight.NoWaiterIsStranded | crates/rust_stream/src/hls.rs:407-422 | once its task has published or gone a waiter can be answered |
| SingleFlight.FreshAfterCrash | crates/rust_stream/src/hls.rs:369-422 | after a crash the next requester is told and the one after starts a fresh fetch |
| Manifests.VideoManifest.IndexSegments | crates/rust_stream/src/models.rs:30-72 | accepts exactly the acceptable manifests and leaves each variant sorted |
| Manifests.CheckSegments | crates/rust_stream/src/models.rs:53-69 | comparing neighbours of a sorted list decides that all indexes differ |
| Manifests.AcceptanceIgnoresOrder | crates/rust_stream/src/models.rs:30-72 | acceptance does not depend on the order segments are listed in |
| Manifests.AcceptedIsBounded | crates/rust_stream/src/models.rs:30-80 | the limits of an accepted manifest, and no name or address in it that could leave its URL or line |
| Manifests.SegmentAddress | crates/rust_stream/src/models.rs:86-92 | binary search finds the address of the index, or proves it absent |
| Manifests.ScanIgnoresOrder | crates/rust_stream/src/models.rs:86-92 | looking up the sorted list gives what a scan of the original list gives |
| Manifests.FindAddress | crates/rust_stream/src/models.rs:86-92 | so does the search the service runs on an indexed variant |
| Playlists.RenderManifest | crates/rust_stream/src/hls.rs:80-122 | succeeds exactly for a ready manifest with a non-empty variant of that resolution, with the text of its lines |
| Playlists.TargetIsLeast | crates/rust_stream/src/hls.rs:103-108 | the target is the least whole second no duration exceeds, and no rounded EXTINF exceeds it (section 4.3.3.1 of RFC 8216) |
| Playlists.UrlRoundTrip | crates/rust_stream/src/routes.rs:119-127 | every rendered URL parses back to its index |
| Playlists.ParsedIsI32 | crates/rust_stream/src/routes.rs:119-127 | only the decimal texts of 32-bit integers are read as an index |
| Playlists.InfoRead | crates/rust_stream/src/hls.rs:112-118 | the EXTINF line of a segment is read back as its duration to the nearest thousandth, ties to even |
| Playlists.PlaylistRoundTrip | crates/rust_stream/src/hls.rs:80-122 | a player reading the text finds a whole target duration, every segment once in index order with its own duration, none above the target as read, and URLs whose index looks up the segment's address in the manifest as it arrived |

## Left out

- The signer interleaved with other tasks is the step machine; `ControlledSigner.Pay` follows one
  run of `pay` with only its own environment's answers, chosen before the run, moving.
- Upload coordination (`Payments::upload`, `resume`, `keep_resume`) is steps of `Gateway` on map
  values rather than methods: its point is what concurrent tasks do between each other's awaits.
- The loop over storage outcomes in `upload_inner`: each `Storing` task simply completes, becomes
  partial or fails, at any time.
- The limit of four upload slots and a task panic that leaves its running entry: liveness only; a
  lost entry is a `Finished` task that is never removed.
- The reconciliation guard's writer (the restore script) and a journal rolled back to an older file:
  `guard` is a fixed parameter of a run.
- ControlledSigner.PayMerkle: whether a receipt decodes to one matching event with a listed winner is
  an input (`Answers.accepted`); the decoding itself is not modelled.
- Integer overflow of `paid.storage` and `paid.gas`, which the caps make unreachable, and of 64-bit
  times, `attempts` and `usize` byte counts.
- Allowances.StorageCapHolds: a run whose batches are all estimated at nothing sets no allowance, so what
  an earlier run left of its own could be charged for them; the theorem asks that they cost nothing.
- Token transfers by other spenders of the wallet, and the chain reordering a mined transaction.
- `finalize`'s network calls: a catalog document is the revision it was built from and its address the
  quote it was stored under, so an address mismatch is a failure like any other.
- CatalogTables.CatalogTable.Prepare: models the final transaction; the first check and the quoting
  before it change nothing.
- The upload, requote and resume routes for videos and the deletion of videos: video rows are
  written by arbitrary `WriteVideo` steps, and job rows are never deleted.
- What else bumps the catalog revision than a published video: the machine bumps it at any time.
- CatalogTables.CatalogTable.Finalize: the catalog addresses written to ready videos and the text of the
  documents inside the snapshot are not modelled, only the revision they were built from and the quote
  their addresses come from.
- The catalog publication job that an administrator's refresh queues: any job may be queued at any
  time, and its `prepare` is a step of its own.
- A database error reported for a transaction that has committed all the same.
- The job retry delay's arithmetic beyond its use in `MarkFailed`, and the recovery of videos after
  the requeue statement in `recover_interrupted_jobs`.
- Manifests.VideoManifest.IndexSegments: on rejection the partly sorted manifest, which is dropped by
  its caller, is not specified, nor which of the two error texts is returned.
- The library sort and binary search are written out as a stable insertion and a halving loop.
- The metadata cache (`insert_metadata`): the same bounded eviction without recency, by expiry.
- Splitting the URL path and percent-decoding before the segment route: the last path segment is
  taken as the route receives it.
- SegmentCacheRecency.HoldsLongestFit: requires that the run stays within one time to live; beyond it,
  expiry removes entries that recency would keep.
- HTTP, configuration, metrics, media processing, user interface: no deep property.
