# File proxy: a model in Dafny

The file proxy puts one API in front of several storage backends. This project models the parts of it
where correctness depends on more than one function, and proves what they promise.
`dafny verify dfyconfig.toml` checks the whole project.

## What is modelled

**The upload protocol** (`Uploads`, `UploadInvariants`, `UploadClaims`, `UploadFiles`, `UploadLosses`,
`UploadCancels`, `UploadOrder`, `UploadWrites`, `UploadSteals`, `UploadDisorder`). Large writes are buffered in a temp file, recorded as a
row and carried to the backend by Celery workers. Web requests, workers, the recovery and the cleanup
command share the rows, the temp files, the message queue and the clock, and coordinate only by guarded
updates and a staleness cutoff of `WRITE_CACHE_STALE_UPLOAD_MINUTES`. The model is a transition system:
every database statement (a guarded update together with its own clock reading), file operation, publish
and clock reading is one action, a run is any sequence of actions, and an action can fail wherever the
call it stands for can raise. Processes die by never being scheduled again. The theorems speak of every
run from the empty deployment. What they add to the finest grain is written in their hypotheses:

- claim spacing, mutual exclusion and the terminal statuses assume nothing beyond the finest grain
  (mutual exclusion assumes the timing it is about);
- when a live row has its bytes is stated exactly, for every run whatsoever (`UploadLosses`); that it
  always has them assumes that no request is buffering or creating while orphans are swept (`QuietRun`),
  that a cancel iteration is one step which the request survives, and that the CANCELLED save works
  wherever the unlink before it did (`WholeCancels`);
- one live row per path and the write order take lookup, cancellations and create of one request as one
  step (`ExclusiveRun`); the write order also assumes that no chain stores bytes later than the stale
  timeout after its claim (`TimelyRun`).

A live row can lose its bytes. `_cancel_stale_uploads` unlinks the temp file before it saves CANCELLED; if
that save raises or the request dies in between, the row stays PENDING or UPLOADING without its file, for
good, and with no request left to finish the job. The orphan sweep of the cleanup command can also remove
the file of a row that its listing of known paths does not hold yet. The project shows runs in which each
happens, proves that these are the only ways, as a guard on single actions, and proves that a live row has
its bytes after a run if and only if none of them has happened to it.

A cancelled row can still reach the backend, but only through a worker that had passed the status check
before the write; the project proves that this is the exact condition (`UploadCancels`).

The order of completed writes turned out to need more than timely writes. Rows can be taken away from
the worker that is writing them by another chain's late *final status update*, or by `enqueue_upload`
rolling back a row that was already published; then an older file can overwrite a newer one. The project
proves exactly when a step is such a steal (a condition on the state before it), shows runs in which
each kind happens although every backend write is in time, and proves the exact condition for the order:
call the order safe in a state if every legal continuation without further steals keeps it; then a step
leaves the order safe if and only if it does not steal, and the order is safe all along a legal run if and
only if none of its steps steals. The comment at
`fileproxy/config/settings.py:64-66` says the timeout only has to exceed the longest expected backend
write; by these results the final status update has to be covered too.

**The same protocol as methods** (`UploadService`, `UploadRequests`, `UploadRuns`, `UploadDeployment`,
`UploadCleanup`). `upload_to_backend`, `enqueue_upload`, the recovery command and the cleanup command in the
imperative form they are written in. Each says case by case what it leaves in every table, in terms of the
tables before it and of what the outside world does; each is also equal to a function of the tables, and but
for the cleanup, of which single rows are, one of the protocol's runs, quiet and exclusive (`UploadRuns`). So each keeps
what such runs keep: the invariant, one live row per path, the newest record live, the backend in step with
the log. A delivery that is done within the stale timeout of its claim is a timely run too. On top of that:
recovery followed by one worker finishes every stalled row within a bounded number of deliveries, as DONE
where the row has its file and the backend works, and the cleanup is exact.

**Billing** (`Calendar`, `Billing`, `Quota`). Month arithmetic on the Gregorian calendar, the
subscription and plan tables, and quota enforcement as a check before an operation and a ledger entry
after it. Quota safety holds in every run in which the stored period has caught up with the clock at each
check and the clock does not stand exactly at the period's end. The second half is needed: with
`now == current_period_end` the row is not advanced (`now <= end` returns), while what is recorded then
already belongs to the next period, so any number of requests passes. `QuotaHoldsExactlyBeforeTheEnd`
states the exact condition for every kind and size of request: with the clock at or before the end of the
period, this period and the next obey the plan for any number of such requests if and only if the clock is
before the end, or no limit applies to them, or they are refused anyway.

**Storage algorithms** (`DriveQuery`, `DrivePaths`, `DriveTree`, `Drive`, `Dropbox`). The Drive backend's
tree of ids as a map from paths to bytes, with API calls that can start to fail at any point; the quoting
of names in Drive queries; the Dropbox upload session against the one-shot write.

**Client state and the vault record** (`Browse`, `Ops`, `Vault`). Virtual folders made from flat keys in
the web client and the explorer, the explorer's operation store, and the encrypted connection payload
over an abstract AEAD (RFC 5116 sections 2.1 and 2.2), base64url (RFC 4648 section 5) and JSON.

## Model

| member | source | states |
|---|---|---|
| UploadInvariants.StepInv | fileproxy/files/tasks.py:34-141 | the global invariant (rows, requests, commands, delivery chains, bytes) survives every single action of every process, and what is recorded or dead stays so |
| UploadInvariants.RunInv | fileproxy/files/write_cache.py:71-153 | the invariant holds after every run, from any state that satisfies it |
| UploadInvariants.TerminalIsClosed | fileproxy/files/tasks.py:21-25 | no run takes a row from DONE, FAILED or CANCELLED back to PENDING or UPLOADING, not even through the unguarded CANCELLED save |
| UploadInvariants.DoneOnce | fileproxy/files/tasks.py:131-133 | after UPLOADING has become DONE the row is never UPLOADING again, so the transition happens at most once |
| UploadInvariants.DoneHasItsWrite | fileproxy/files/tasks.py:110-133 | a DONE row has a completed backend write of exactly its own bytes to its own path in the log |
| UploadInvariants.ChainsWaitAtMost | fileproxy/files/tasks.py:116-126 | the countdowns of a delivery chain add up to at most (4^max_retries - 1) / 3 seconds |
| UploadClaims.ClaimsAreLogged | fileproxy/files/tasks.py:48-79 | every change of claimed_at and every PENDING to UPLOADING step is an entry of the claim log with the time it stamps |
| UploadClaims.ClaimsAreSpaced | fileproxy/files/tasks.py:46-79 | any two claims of one record, by first claim, re-claim or recovery reset plus claim, are strictly more than the stale timeout apart |
| UploadClaims.WritesDoNotOverlap | fileproxy/files/tasks.py:99-112 | if running writes are within the timeout of their claims, no two write_stream calls for one record overlap |
| UploadFiles.LiveRowsKeepTheirBytes | fileproxy/files/write_cache.py:60-68 | in quiet runs a live row has its temp file with exactly the enqueued bytes unless a cancellation has removed the file and not saved the status since, and exactly then |
| UploadFiles.NoLiveRowWithoutItsBytes | fileproxy/files/write_cache.py:121-151 | with cancel iterations that are one step, and whose save works where the unlink did, every PENDING or UPLOADING row has its file with exactly the enqueued bytes |
| UploadLosses.LosesExactly | fileproxy/files/write_cache.py:60-68 | one action makes a live row be without its file exactly if it is a cancellation's unlink that works, a sweep of a file not in its listing, or a create after such a sweep |
| UploadLosses.LostForGood | fileproxy/files/write_cache.py:60-68 | the file of a row that was created never comes back once it is gone |
| UploadLosses.LiveRowHasItsBytesExactly | fileproxy/files/write_cache.py:121-151 | after any run a live row has its file with exactly the enqueued bytes if and only if none of those three actions has happened to it |
| UploadLosses.RequestKeepsFilesExactly | fileproxy/files/write_cache.py:60-68 | an uninterrupted request leaves every live row with its file exactly unless the CANCELLED save raised for a row whose file it had unlinked |
| UploadLosses.UnsavedCancelLoses | fileproxy/files/write_cache.py:60-68 | from any idle state with a stale row that has its file, a run ends idle with that row live and its file gone |
| UploadLosses.CancellationCanLoseBytes | fileproxy/files/write_cache.py:60-68 | such a run from the empty deployment: an upload, and a second one whose cancellation of the first cannot be saved |
| UploadLosses.SweepCanLoseBytes | fileproxy/files/management/commands/cleanup_pending_uploads.py:99-117 | a run in which a sweep between buffering and create leaves a new row without its file |
| UploadCancels.CheckStopsWritesExactly | fileproxy/files/tasks.py:96-112 | once a row is cancelled, failed, done or deleted, some further run can still write its bytes exactly if a worker of it is past the status check with the file open or still there |
| UploadOrder.AtMostOneLiveRowPerPath | fileproxy/files/write_cache.py:91-130 | in every reachable state at most one row per (user, connection, path) is live, although two cutoffs are read |
| UploadOrder.EffectOwners | fileproxy/files/tasks.py:96-112 | unless a step takes a row from its writer, a worker that can still store in time holds its row under its own claim |
| UploadWrites.WritesFollowCreationOrder | fileproxy/files/write_cache.py:91-114 | without steals, completed writes to a path are in record-creation order |
| UploadWrites.BackendHoldsNewestWrite | fileproxy/files/tasks.py:110-133 | without steals, the backend holds the bytes of the newest record of the path that completed a write |
| UploadSteals.StealKinds | fileproxy/files/tasks.py:21-25 | a row can be taken from its writer only by another chain's late final update or by the rollback of a published row |
| UploadSteals.StealsExactly | fileproxy/files/tasks.py:131-133 | a worker that could still store loses its row exactly to a final update of another chain on the same row, or to a rollback of that row whose delete works |
| UploadSteals.PromptChainsKeepOrder | fileproxy/config/settings.py:64-66 | if final updates too are within the timeout of their claim and no row a worker has is rolled back, writes stay in order |
| UploadDisorder.StealLeadsToDisorder | fileproxy/files/tasks.py:131-133 | from any state in which a step steals a row, a legal continuation without any further steal stores an older record over a newer one |
| UploadDisorder.StepKeepsOrderExactly | fileproxy/files/write_cache.py:131-145 | one action leaves the order safe (kept by every legal continuation without further steals) if and only if it is no final update and no rollback of a row that another worker is still going to store |
| UploadDisorder.OrderSafeExactlyWithoutSteals | fileproxy/files/write_cache.py:91-114 | the order is safe before and after every action of a legal run if and only if no action of the run steals |
| UploadDisorder.RollbackCanSteal | fileproxy/files/write_cache.py:131-145 | a run in which saving the Celery id fails after publishing, and the rollback deletes the row a worker is writing |
| UploadDisorder.LateFinishCanSteal | fileproxy/files/tasks.py:131-133 | a run in which all writes are in time and a late DONE update takes the row from the chain that re-claimed it |
| UploadDisorder.TimelyWritesAreNotEnough | fileproxy/config/settings.py:64-66 | some run with timely backend writes only stores an older record over a newer one |
| UploadService.DeliveryIsRun | fileproxy/files/tasks.py:34-141 | an uninterrupted delivery, with time passing before its claim and at work, is one run of the protocol |
| UploadService.DeliverySettles | fileproxy/files/tasks.py:84-141 | a delivery is dropped, or it ends with its row DONE or FAILED, or UPLOADING with the retry queued under the same name; no other row or message changes |
| UploadService.DeliveryDelivers | fileproxy/files/tasks.py:34-141 | the outcome of a delivery in each of its cases, from the tables before it and what the outside world does |
| UploadRequests.StoreIsRun | fileproxy/files/write_cache.py:116-153 | everything after the cancellations, with any failure, is a run of the protocol |
| UploadRequests.RequestBegins | fileproxy/files/write_cache.py:91-114 | lookup and, any time later, selection are a run: a fresh row ends the request, otherwise exactly the rows that the second cutoff makes cancellable are selected |
| UploadRequests.RequestLeavesOneLiveRow | fileproxy/files/write_cache.py:91-153 | an accepted request leaves its row as the only live one of its path, with its bytes and its message; one that raised after the cancellations leaves its row PENDING with its bytes or not at all; one whose CANCELLED save raised creates and sends nothing and has cancelled exactly the rows before it; other paths and finished rows keep rows, files and bytes |
| UploadRequests.EnqueuedMeans | fileproxy/files/write_cache.py:71-153 | the outcome of a request in each of its cases, from the tables before it and what the outside world does, for the answer, rows, files, records and queue |
| UploadRuns.DeliveryIsLegal | fileproxy/files/tasks.py:34-141 | a delivery is a quiet and exclusive run, and a timely one if it takes no longer than the stale timeout and the claim it holds lasts as long |
| UploadRuns.WorkersKeepSound | fileproxy/files/tasks.py:34-141 | runs of workers and of the recovery command keep the invariant, the bytes, one live row per path and the newest record live |
| UploadRuns.RequestKeepsSound | fileproxy/files/write_cache.py:71-153 | so does the run of one request |
| UploadDeployment.DeliveryUsesWeight | fileproxy/files/tasks.py:116-126 | every delivery lowers the sum of (max_retries + 1 - retries) over the queue |
| UploadDeployment.DeliveryKeepsTrack | fileproxy/files/tasks.py:48-80 | a row that is finished or has a message that will still finish it stays so through any delivery, duplicates included |
| UploadDeployment.WorkingDeliveryKeepsTrack | fileproxy/files/tasks.py:99-141 | a row that is DONE, or has its file and a message that a working backend turns into DONE, stays so through any delivery with a working backend |
| UploadDeployment.Deployment.Fail | fileproxy/files/tasks.py:21-31 | an UPLOADING row becomes FAILED; every other status and every other row stays |
| UploadDeployment.Deployment.WriteStream | fileproxy/files/tasks.py:110-141 | the write, its retry or failure, the DONE update and the unlink leave the tables its outcome function says |
| UploadDeployment.Deployment.UploadToBackend | fileproxy/files/tasks.py:34-141 | case by case from the tables before: dropped, and only the message goes; no file or no backend: FAILED and nothing written; write and return work: the bytes are at the row's path, logged once, the row is DONE and the file gone unless it cannot be deleted; the backend raises: one retry more is queued, or after the last the row is FAILED, with the file kept; the claim is stamped and logged exactly where one is made; nothing else changes |
| UploadDeployment.ResetExactly | fileproxy/files/management/commands/recover_pending_uploads.py:29-33 | the bulk update makes exactly the stalled rows PENDING and changes nothing else |
| UploadDeployment.Deployment.RecoverPendingUploads | fileproxy/files/management/commands/recover_pending_uploads.py:24-60 | exactly the stalled rows become PENDING and no row changes otherwise; each PENDING row is published once under a new name unless its dispatch raises; counts both kinds; is a run of the protocol and keeps what such runs keep |
| UploadDeployment.Deployment.Drain | fileproxy/files/tasks.py:34-141 | one worker empties any queue in at most the summed remaining deliveries; every row on track ends DONE or FAILED, and DONE if it has its file and the backend works every time; is a run of the protocol and keeps what such runs keep |
| UploadDeployment.Deployment.RecoverAndDrain | fileproxy/files/management/commands/recover_pending_uploads.py:29-54 | after a recovery whose dispatches all succeed and one worker, every row that was PENDING or stale UPLOADING is DONE or FAILED, within the deliveries still due before plus max_retries + 1 for each such row; and DONE if it has its file and the backend works every time |
| UploadDeployment.Deployment.CancelStaleUploads | fileproxy/files/write_cache.py:39-68 | cancels all selected rows with their files, or stops at the save that raised with exactly the rows before it cancelled |
| UploadDeployment.Deployment.WriteStreamToTemp | fileproxy/files/write_cache.py:31-36 | the temp file holds the whole stream whatever the read sizes, or exactly the bytes written before a read raised |
| UploadDeployment.Deployment.EnqueueUpload | fileproxy/files/write_cache.py:71-153 | case by case from the tables before: a row in work is returned, and then nothing changes; the save of a CANCELLED status raised; or exactly the PENDING and stale rows of the path are CANCELLED with their files, and the new row, its file, its message and the answer are what the failures on the way leave, the rollback included; is a run of the protocol and keeps what such runs keep |
| UploadCleanup.Cache.DeleteOldRows | fileproxy/files/management/commands/cleanup_pending_uploads.py:53-84 | phase 1: exactly the DONE, FAILED and CANCELLED rows from before the cutoff go, with their files unless those cannot be deleted; every other row keeps its values and its file; the three counters count them |
| UploadCleanup.Cache.RemoveOrphans | fileproxy/files/management/commands/cleanup_pending_uploads.py:93-117 | phase 2: the files of no row go unless they cannot be deleted, every row's file stays, and the counter is the number of files gone, or in a dry run of those that would go |
| UploadCleanup.Cache.Cleanup | fileproxy/files/management/commands/cleanup_pending_uploads.py:45-117 | a real run: PENDING, UPLOADING and recent rows stay as they are with their files; older finished rows go, with their files unless these can be deleted in neither phase; files of no row go; rows and files before are rows and files after plus those counted; a dry run changes nothing and counts the same |
| UploadCleanup.CleanupIsExact | fileproxy/files/management/commands/cleanup_pending_uploads.py:53-117 | PENDING, UPLOADING and recent rows keep row and file, and older finished rows are gone; the unreferenced files left are exactly those that phase 2 saw and could not delete |
| UploadCleanup.RealRunMeans | fileproxy/files/management/commands/cleanup_pending_uploads.py:53-117 | which rows and files a real run leaves, row by row and file by file, and that rows and files before are those after plus those counted |
| UploadCleanup.DeleteOldRowIsRun | fileproxy/files/management/commands/cleanup_pending_uploads.py:62-84 | one row of phase 1 is three actions of the protocol |
| UploadCleanup.CleanupSpares | fileproxy/files/management/commands/cleanup_pending_uploads.py:53-117 | in the protocol a cleanup never takes up a live row, and a sweep removes exactly the files its listing does not hold |
| UploadCleanup.DryRunPredicts | fileproxy/files/management/commands/cleanup_pending_uploads.py:72-90 | a dry run changes nothing and predicts rows exactly, files as deleted plus kept, and all counts when no unlink fails |
| Calendar.AddOneMonthMoves | fileproxy/subscription/service.py:16-25 | the next month, the same day or the last one it has, 28 to 31 days later |
| Calendar.YearsAddUp | fileproxy/subscription/service.py:23-24 | the leap-year rule agrees with the closed form of the day count |
| Calendar.DayNumberIsClosed | fileproxy/subscription/service.py:23-24 | the month table and the closed form that counts 153 days for five months from March agree on every day |
| Calendar.MonthLengthIsClosed | fileproxy/subscription/service.py:24 | every month is as long as the closed form takes from its first day to the first of the next |
| Calendar.InstantOrder | fileproxy/subscription/service.py:49-51 | comparing datetimes field by field is comparing instants |
| Calendar.AfterAdvances | fileproxy/subscription/service.py:53-55 | after k advances exactly k months have passed and the day is the original one cut to the shortest month on the way |
| Calendar.DaySettles | fileproxy/subscription/service.py:53-55 | from the 23rd advance on (so after 24) the day is the original one or 28, and never changes again |
| Calendar.DaySettlesExactly | fileproxy/subscription/service.py:53-55 | the day has settled for every start exactly from the 23rd advance on |
| Billing.AdvanceStep | fileproxy/subscription/service.py:47-69 | until its end a row stays; after it the next month starts there, active with nothing to cancel; a cancelled row loses its plan, an active one keeps it unless it has expired |
| Billing.ApplyOk | fileproxy/subscription/service.py:161-251 | every operation keeps: one-month periods, CANCELED exactly with cancel_at at the period end, existing plans, one default plan |
| Billing.DefaultIsMoved | fileproxy/subscription/service.py:161-207 | creating or choosing a default takes the flag from all others and touches nothing else |
| Billing.SwitchTakesEffect | fileproxy/subscription/service.py:210-224 | an unexpired plan is in effect at once, for a period that starts now and has not ended |
| Billing.DeletedPlanIsGone | fileproxy/subscription/service.py:190-198 | a deleted plan is nobody's effective plan and not the default any more; other plans and all subscriptions stay |
| Billing.CancelTakesEffectAtTheEnd | fileproxy/subscription/service.py:47-69 | looked at after its end, a cancelled subscription is active without a plan for the month from that end; until then it keeps plan and period |
| Billing.Run | fileproxy/subscription/service.py:161-251 | that invariant after any sequence of operations |
| Billing.AnyRunIsOk | fileproxy/subscription/service.py:161-251 | from empty tables, over any run: periods of one month, CANCELED implies cancel_at is the period end, at most one unexpired default |
| Billing.CallsAdvance | fileproxy/subscription/service.py:47-55 | k calls at one moment advance by k months or stop in the period holding that moment |
| Billing.CallsReachPresent | fileproxy/subscription/service.py:47-55 | one call for every 28 days of lag, plus one, reach the present, and then calls change nothing |
| Billing.Office.AdvanceCycleIfNeeded | fileproxy/subscription/service.py:47-69 | the stored row is brought up to date in that sense, and no other; the invariant of the books is kept |
| Billing.Office.GetOrCreateSubscription | fileproxy/subscription/service.py:28-44 | a missing row is created, active without a plan for a month from now; an existing one is brought up to date; no other row changes; the invariant is kept |
| Billing.Office.SwitchPlan | fileproxy/subscription/service.py:210-224 | the new plan for a month from now, active, nothing to cancel, the cancel flag as it was; no other row changes; in effect at once unless expired; the invariant is kept |
| Billing.Office.CancelSubscription | fileproxy/subscription/service.py:244-251 | the row brought up to date keeps plan and period, is CANCELED with cancel_at at its end and the flag set; no other row changes; the invariant is kept |
| Billing.Office.CreatePlan | fileproxy/subscription/service.py:161-187 | the new plan never expires and has the flag as asked; all others keep their expiry and lose the flag exactly if the new one takes it; the invariant is kept |
| Billing.Office.SetDefaultPlan | fileproxy/subscription/service.py:201-207 | exactly this plan is default afterwards, and no expiry changes; the invariant is kept |
| Billing.Office.DeletePlan | fileproxy/subscription/service.py:190-198 | if an active subscription uses it the plan expires now and no subscription changes, else it is removed and exactly its subscriptions lose it; other plans stay; it is in effect for nobody; the invariant is kept |
| Billing.Office.GetEffectivePlan | fileproxy/subscription/models.py:104-107 | the user's own plan while it has not expired, otherwise exactly the default plan without an expiry, if there is one |
| Quota.GetCycleUsage | fileproxy/subscription/service.py:72-106 | one pass computes, for each kind, the operations of the window that worked, and for reads and writes their bytes |
| Quota.CountIsSize | fileproxy/subscription/service.py:75-80 | the count is the number of events of the kind that worked and lie in the window |
| Quota.AdvanceSafe | fileproxy/subscription/service.py:47-55 | moving to the next period keeps the accounts safe: at most one event is already in it, and it fits |
| Quota.ServeSafe | fileproxy/files/api/views.py:228-342 | every request keeps the accounts safe when its checks find a caught-up period |
| Quota.EveryPeriodIsWithinLimits | fileproxy/subscription/service.py:109-158 | after any such run every period the user has had, also one entered and left inside a single request, obeys the plan: counts and written bytes within limits, read bytes within the limit before each counted read |
| Quota.CountedWhereChecked | fileproxy/subscription/service.py:49-51 | a request that passes is counted in the window it was checked against exactly when the period has caught up and does not end just then |
| Quota.EndOfPeriodIsUnchecked | fileproxy/subscription/service.py:49-51 | with the clock exactly at the period's end any number of requests of any kind and size passes into the next period |
| Quota.QuotaHoldsExactlyBeforeTheEnd | fileproxy/subscription/service.py:49-51 | from a safe account with the clock at or before the period's end, for every kind and size: this period and the next obey the plan for any number of requests if and only if the clock is before the end, or no limit applies, or they are refused anyway |
| Quota.UserAccount.CheckLimit | fileproxy/subscription/service.py:109-158 | moves to the next period exactly after the end of the present one, and passes exactly if operations and bytes of that window leave room under the limits of the kind |
| Quota.StreamIsServed | fileproxy/files/api/views.py:264-306 | the branches of a streamed upload: when its checks pass, in which periods they are made, and what is counted |
| Quota.UserAccount.Objects | fileproxy/files/api/views.py:167-185 | a listing or deletion is recorded at its end and counts exactly if it worked and its check passed; keeps a safe account safe when the check finds a caught-up period |
| Quota.UserAccount.TrackedStream | fileproxy/files/api/views.py:91-121 | the bytes of the chunks sent are recorded, and count unless the backend raised, also when the client goes away |
| Quota.UserAccount.PathRead | fileproxy/files/api/views.py:203-226 | a download is checked without bytes and counts with those sent, in every window that holds its end, exactly if its check passed, it opened and the backend did not raise; keeps a safe account safe likewise |
| Quota.UserAccount.PathWriteSized | fileproxy/files/api/views.py:238-262 | a body of known size is checked with that size and counts with it, in every window that holds its end, exactly if it worked and its check passed; keeps a safe account safe likewise |
| Quota.UserAccount.PathWriteStream | fileproxy/files/api/views.py:264-306 | branch by branch: a stream that works and passes its checks counts as one write, with its declared size from the threshold on and its actual size below, in every window that holds its end; one that fails or is refused counts nowhere; the actual size is checked exactly where it differs; keeps a safe account safe likewise |
| DriveQuery.TwoPassesAreOne | fileproxy/core/backends/gdrive.py:397-400 | the two whole-string replacements equal the one-pass escape |
| DriveQuery.QuotedReadsBack | fileproxy/core/backends/gdrive.py:85-92 | a lexer gets back exactly the name and stops at the closing quote, whatever follows |
| DriveQuery.QuotedIsInjective | fileproxy/core/backends/gdrive.py:397-400 | different names never give the same literal, whatever follows |
| DriveQuery.OtherOrderReadsBackExactly | fileproxy/core/backends/gdrive.py:397-400 | replacing in the other order, a name would be read back exactly if it has no quote |
| DrivePaths.StripChangesNothing | fileproxy/core/backends/gdrive.py:94-106 | leading, trailing and repeated slashes of a folder path do not matter |
| DrivePaths.PartsByLaws | fileproxy/core/backends/gdrive.py:94-106 | the components of a folder text: a slash separates, and a text without one is a component unless it is empty |
| DrivePaths.SplitPathExactly | fileproxy/core/backends/gdrive.py:128-133 | the file name is what stands behind the last slash, the folder what stands before it |
| DrivePaths.ParseRendered | fileproxy/core/backends/gdrive.py:128-133 | every normalised path is the meaning of the string that spells it |
| DrivePaths.ParsedIsPlain | fileproxy/core/backends/gdrive.py:128-133 | every string means a normalised path |
| DriveTree.WalkIsUnique | fileproxy/core/backends/gdrive.py:94-106 | with unique siblings a folder is reached by one list of components only |
| DriveTree.AddFileGet | fileproxy/core/backends/gdrive.py:240-246 | a new file changes the map at its own path only |
| DriveTree.UpdateGet | fileproxy/core/backends/gdrive.py:234-239 | new content changes the map at its own path only |
| DriveTree.RemoveGet | fileproxy/core/backends/gdrive.py:309-326 | removing a node empties its path and everything below it, nothing else |
| Drive.DriveBackend.FindChild | fileproxy/core/backends/gdrive.py:85-92 | some match of the query, or none if there is none |
| Drive.DriveBackend.ResolveFolder | fileproxy/core/backends/gdrive.py:94-106 | the folder the components lead to, or a miss exactly when there is none, unless a call fails |
| Drive.DriveBackend.GetOrCreateFolder | fileproxy/core/backends/gdrive.py:108-126 | when no file is in the way: returns the folder resolving then finds, changes no path's bytes, creates nothing that exists, keeps the way free; and when no call fails, siblings stay unique exactly if no file was in the way; no existing node ever changes |
| Drive.CreateFolderTwice | fileproxy/core/backends/gdrive.py:108-126 | the second of two calls leaves the tree as the first left it and returns the same folder |
| Drive.DriveBackend.Read | fileproxy/core/backends/gdrive.py:203-226 | the bytes of the map at the normalised path, or an error when there are none |
| Drive.DriveBackend.Write | fileproxy/core/backends/gdrive.py:228-250 | when nothing clashes with the path: the map is updated at exactly this path, or nowhere when a call fails; sibling uniqueness and freedom from clashes are kept; it succeeds when no call fails, with at most two calls per component and two more; clash or not, no node goes, none changes but to a file of that name with these bytes, and a success leaves one |
| Drive.WriteThenRead | fileproxy/core/backends/gdrive.py:203-250 | what was written is read back, under every spelling of the path |
| Drive.WriteTwice | fileproxy/core/backends/gdrive.py:228-250 | the second of two writes to a path counts, and other paths keep what they had |
| Drive.DriveBackend.Delete | fileproxy/core/backends/gdrive.py:309-326 | succeeds exactly when a node of this name is there, unless a call fails; then the path, and below a folder every path, reads as missing and all others as before; a failed delete changes nothing |
| Drive.DeleteThenRead | fileproxy/core/backends/gdrive.py:309-326 | what was deleted cannot be read |
| Drive.UniquenessKeptExactly | fileproxy/core/backends/gdrive.py:115-125 | creating a missing folder keeps siblings unique exactly when no file has its name |
| Dropbox.ReadsWholeExactly | fileproxy/core/backends/dropbox.py:189-212 | the chunks up to the first short one are the whole stream exactly when no read before the end is short |
| Dropbox.EndsWithTheFirstShortRead | fileproxy/core/backends/dropbox.py:189-212 | the reads end after whole chunks and one short read, with as many bytes as that one gives |
| Dropbox.SameObjectExactly | fileproxy/core/backends/dropbox.py:35-39 | every path becomes an absolute one, and two paths name the same object exactly if they differ at most in a leading slash that makes one absolute |
| Dropbox.StreamedIsOneShotExactly | fileproxy/core/backends/dropbox.py:189-212 | the chunked write leaves what the one-shot write leaves exactly when no read before the end is short |
| Dropbox.DropboxBackend.WriteStreamOneShot | fileproxy/core/backends/base.py:149-151 | the base class writes the whole rest of the stream in one request, and succeeds exactly when that is accepted |
| Dropbox.DropboxBackend.FeedSession | fileproxy/core/backends/dropbox.py:205-219 | every cursor offset is what the session has received, the commit is everything sent, and the loop ends |
| Dropbox.DropboxBackend.WriteStream | fileproxy/core/backends/dropbox.py:189-220 | commits the stream up to the first short chunk in (length div chunk) + 1 requests and succeeds exactly when they are accepted; a failed request changes no object |
| Browse.ToEntries | fileproxy/static/ts/files/browse.ts:276-307 | the folder entries in the order of their first objects, each once with its path, one for every key that goes on below a slash; then a file entry for exactly the keys that end on the level, in order |
| Browse.RestsExactly | windows-explorer/ui/filetable.go:122-127 | what is left of a key: without the prefix if it begins with it, and in the explorer then without one slash |
| Browse.ListedTimes | fileproxy/static/ts/files/browse.ts:276-307 | descending from any prefix lists each file key below it as often as it occurs, and nothing else |
| Browse.TreeIsLossless | fileproxy/static/ts/files/browse.ts:276-307 | from the top, every non-empty key not ending in a slash is listed exactly as often as it occurs; the descent terminates |
| Browse.BrowserState.GoUp | fileproxy/static/ts/files/browse.ts:1065-1072 | drops the last non-empty component |
| Browse.UpUndoesEnterExactly | fileproxy/static/ts/files/browse.ts:1065-1072 | entering a folder and going up returns to the prefix exactly when the prefix is normal and the name not empty (or the prefix is the top) |
| Browse.Reload | windows-explorer/ui/filetable.go:118-160 | the explorer's folders of a level in order of their lower-case names, each once with its path, then exactly its files in that order |
| Browse.BuildChildren | windows-explorer/ui/conntree.go:125-150 | a child for every folder of the table's level, each once with its path, in the order of their first objects |
| Browse.ClientsAgreeExactly | windows-explorer/ui/filetable.go:122-127 | explorer and web client see a key alike exactly when no slash follows the prefix |
| Browse.LevelsAgree | windows-explorer/ui/filetable.go:118-160 | then both show the same level |
| Ops.PruningIsInvisible | windows-explorer/ui/ops.go:183-213 | pruning never changes which ops the panel shows, nor what it shows of them, then or later |
| Ops.WithoutKeepsTheRest | windows-explorer/ui/ops.go:199-213 | removing ops from the list leaves exactly the others, each as often as it occurs, in order |
| Ops.ShownAreTheRecent | windows-explorer/ui/ops.go:183-197 | the panel shows exactly the ops not finished for more than four seconds, in order |
| Ops.LastEntryIsLast | windows-explorer/ui/ops.go:222-225 | the entry for a path is its last one in the list, and there is none exactly if no entry has the path |
| Ops.SyncedExactly | windows-explorer/ui/ops.go:231-256 | finished ops and those of others are frozen; an unlisted upload is Done with all its bytes; a listed one takes name and size of its entry and is Active, Pending or Failed as that says, or as before; exactly the unlisted ones complete; a second reconciliation changes nothing |
| Ops.Op.Sync | windows-explorer/ui/ops.go:231-256 | one upload after that reconciliation; true exactly when it was unfinished and is no longer listed |
| Ops.OpsStore.Active | windows-explorer/ui/ops.go:183-197 | the views, with id, kind and name, of the ops not finished more than four seconds ago, in order |
| Ops.OpsStore.Prune | windows-explorer/ui/ops.go:199-213 | the in-place compaction leaves exactly the ops not finished for more than five seconds, in order |
| Ops.OpsStore.ByPath | windows-explorer/ui/ops.go:222-225 | the last listed entry for a path decides |
| Ops.OpsStore.SyncWithPending | windows-explorer/ui/ops.go:215-259 | finished ops, other kinds and other connections are frozen; each unfinished upload of the connection is reconciled with its last entry; true exactly when some op became Done |
| Vault.UnwrapWrapped | fileproxy/connections/models.py:99-109 | the wrapped key splits back at its only first dot and unwraps under the same additional data only |
| Vault.PayloadAadInjective | fileproxy/connections/models.py:91-93 | the payload's additional data determines scope, kind and id, although scopes contain colons |
| Vault.DekAadInjective | fileproxy/connections/models.py:95-97 | the key's additional data determines scope and kind |
| Vault.AadFormsDiffer | fileproxy/connections/models.py:91-97 | the two forms never coincide |
| Vault.DekAadDeterminesExactly | fileproxy/connections/models.py:95-97 | among records with colon-free kinds, the key's additional data determines scope and kind exactly if the record's own kind is colon-free |
| Vault.OpenSealed | fileproxy/connections/models.py:111-157 | a sealed payload opens for its own record, and for no other scope, kind or id |
| Vault.SealedWithItsDraw | fileproxy/connections/models.py:111-138 | the columns unwrap to the drawn data key under the drawn nonces, and the ciphertext decrypts under that key to the payload |
| Vault.SealedApart | fileproxy/connections/models.py:180-195 | two seals of one payload are equal exactly if key and nonces were drawn alike |
| Vault.PayloadSurvives | fileproxy/connections/models.py:180-195 | after set_payload and any sequence of rotations and renames the payload is the original one |
| Vault.Connection.constructor | fileproxy/connections/models.py:111-138 | a new record holds its payload, sealed with the key and nonces drawn for it |
| Vault.Connection.SetPayload | fileproxy/connections/models.py:111-138 | get_payload then returns these settings and secrets; the columns are sealed with the key and nonces drawn for them |
| Vault.Connection.Rotate | fileproxy/connections/models.py:180-195 | the same payload, sealed with the key and nonces newly drawn; nothing changes if it cannot be read |
| Vault.Connection.Rename | fileproxy/connections/api/views.py:192-199 | the name is not part of the additional data, so the payload stays |

## Left out

- UploadDeployment.Deployment.UploadToBackend: runs without interruption by other processes; interleavings within a delivery are the business of the transition system.
- UploadDeployment.Deployment.EnqueueUpload: runs without interruption by other processes, and time passes only between its two cutoffs.
- UploadFiles.NoLiveRowWithoutItsBytes: has the hypotheses QuietRun and WholeCancels, because a live row can lose its bytes without them (UploadLosses.SweepCanLoseBytes, UploadLosses.CancellationCanLoseBytes); UploadLosses.LiveRowHasItsBytesExactly needs neither.
- UploadWrites.WritesFollowCreationOrder: has the hypothesis that no row is stolen, because the order is false without it (UploadDisorder.TimelyWritesAreNotEnough, UploadDisorder.OrderSafeExactlyWithoutSteals).
- UploadCleanup.Cache.Cleanup: temp paths are distinct by class invariant, since each is named after its row's UUID; a cache directory that does not exist has no files; deleting a row does not raise (in the transition system it may).
- Quota.EveryPeriodIsWithinLimits: one user, one fixed plan, requests one at a time; the periods checked against must have caught up with the clock and not end at that very moment (Quota.QuotaHoldsExactlyBeforeTheEnd says why).
- Drive.DriveBackend.Write: for a path that runs through a file or ends in the name of a folder it says which nodes may change, not what is read at the path; Drive.UniquenessKeptExactly and Drive.DriveBackend.GetOrCreateFolder say what goes wrong then.
- Browse.Reload: lower-casing is a parameter, and names are compared character by character; of the sort only the contract of sort.Slice is used.
- Vault.OpenSealed: that nothing opens under other additional data is an idealised assumption about the AEAD; round trips of AES-GCM, base64url and JSON are assumptions as well.
- Row fields that nothing reads back in the protocol: retry_count, error_message, completed_at, celery_task_id, expected_size.
- Backend SDK calls, HTTP, OAuth, serializers and routing: a backend is a map from paths to bytes with calls that may fail. Drive's read_stream and write_stream make the same calls as read and write with a chunked body.
- Celery and Redis: a message is delivered at most once and in any order; backend construction fails only with the errors `upload_to_backend` catches.
- Synchronous writes below the size threshold bypass the protocol and are not a source of backend values in it.
- Datetimes are unbounded; Python's year 9999 limit is not modelled. Times are UTC.
- Subscription statuses other than active and canceled, and the Stripe and trial fields, which nothing in these functions reads.
- Locks and goroutines of the explorer: each method of the operation store is one step with one clock reading.
- DOM rendering, tables, drag and drop, account approval, API-key throttling, usage charts, the health checks and the vault poll counter: small guards or presentation.
