# Verified model of the BX YunPan backend protocols

This project models the crash-tolerant protocols of the BX YunPan backend in Dafny and proves what
they promise. The backend keeps its state in PostgreSQL rows and does its work through calls that
may succeed, fail, be delayed or be followed by a crash: object storage, a message broker, search
engines and task handlers that may ignore cancellation. Run `dafny verify dfyconfig.toml`.

How the model reads the system:

- A database transaction is one atomic step, as its row and advisory locks make it. `SKIP LOCKED`
  and query order become free choices of the step's parameters.
- A provider or broker call is a separate step. Once issued it may land at any later time, any
  number of times, whether or not the worker that issued it still holds its lease.
- Clocks are integers in milliseconds; a deadline in the code bounds how long a phase lasts. Timers
  fire when due, and all workers read one clock.
- Tokens, identifiers and digests are fresh or injective values.
- Services that change rows in place are classes whose methods are proved against functions of the
  old state; protocols over many workers are state machines over those functions, and their
  theorems hold for every finite sequence of steps.

| file | what it covers |
|---|---|
| `ObjectLifecycle.dfy`, `ObjectProtocol.dfy` | content-addressed objects: rows, generation keys, concurrent copies and deletes, thumbnails |
| `StorageOps.dfy` | durable storage operations: leases, fencing, retry budget |
| `TaskExecution.dfy` | leased task execution in real time, receipts, replay, settlement of deliveries |
| `Scheduler.dfy` | smooth weighted round robin over the consumer's queues |
| `Accounting.dfy`, `MultipartUpload.dfy` | quota, references, entries and upload sessions; multipart uploads across crashes |
| `DriveTree.dfy`, `Pagination.dfy`, `DriveHistory.dfy` | the folder tree, epoch-fenced keyset pages, and why drive writes make the pages sound |
| `Projection.dfy`, `QdrantView.dfy` | search projections in PostgreSQL, Elasticsearch and Qdrant |
| `AiVersions.dfy` | index generations of AI documents |
| `RecoveryScan.dfy`, `Outbox.dfy` | recovery scans and budgets; outbox deliveries and relays |
| `Lexical.dfy` | the lexical analyser and its keys |
| `Common.dfy` | shared vocabulary |

## Main results

Each of these holds over every run of its state machine, or for every input.

- Objects: ready rows have their bytes and deleting keys are never reused, under late and repeated
  provider calls (`ObjectProtocol.ReadyObjectsHaveBytes`, `ObjectProtocol.DeletingKeyIsNeverReused`);
  and uploads do finish (`ObjectProtocol.KnownContentCommits`, `ObjectProtocol.NewContentCommits`),
  deletes too (`ObjectProtocol.DeletionCompletes`).
- Tasks: handler bodies never overlap exactly from a stop timeout of five seconds on
  (`TaskProtocol.SafeExactly`); receipts are final, and success and death each have their reason
  (`TaskProtocol.SuccessIsRecorded`, `TaskProtocol.ReceiptHasReason`).
- Storage operations: fencing, budget and progress (`StorageOps.Fencing`, `StorageOps.Budget`,
  `StorageOps.NothingIsLeftBehind`).
- Accounts: quota, references and entries stay exact under any sequence of transactions
  (`LedgerRuns.Perform`), and owners do not see each other's holdings (`Ledger.HoldingsAreOwn`).
- Drive: a walk of pages is one committed listing, complete and in order
  (`Pagination.WalkIsSnapshot`, `Pagination.WalkIsInOrder`, `DriveHistory.DriveCallsMakeHistory`).
- Search: when projections converge and deletions hold, exactly
  (`ProjectionFence.ConvergesExactly`, `ElasticDeletion.ServedExactly`, `QdrantView.ViewIsExact`).
- Scheduling, multipart uploads, outbox, recovery and the analyser: `RoundRobin.Fairness`,
  `MultipartUpload.LiveUploadIsOpenExactly`, `Outbox.PublishedOnlyAfterConfirmation`,
  `RecoveryScan.EveryRowIsScanned`, `Lexical.RecallExactly`.

## What the code does not promise

Where a promise turned out to hold only under a condition, the exact condition is proved.

- Two handler bodies of one task can overlap when the configured stop timeout is positive but below
  five seconds, although any positive value is accepted (`TaskProtocol.SafeExactly`).
- The instant upload described in the repository's top-level README cannot commit: the owner of a
  matching object already holds it, and a second entry for the same object is refused
  (`Ledger.Accounts.Create`).
- A deletion written to the PostgreSQL projection before the first upsert of the file or chunk is
  lost; the Elasticsearch markers are not (`PostgresProjection.DeletionHoldsExactly`,
  `PostgresProjection.ContentDeletionHoldsExactly`, `ElasticProjection.DeletionAlwaysHolds`,
  `ElasticDeletion.ServedExactly`).
- An Elasticsearch content document keeps the embedding of an older document when the newer one has
  none (`ElasticProjection.ContentAgreesExactly`).
- Qdrant deletions are exact for candidates of epoch one or more and for no others
  (`QdrantView.LookupIsNaiveExactly`, `QdrantView.ViewIsExact`). The projector and the backfill give
  every document a positive epoch (`search/projector.go:64-71`, `search/backfill.go:70-77`) and the
  PostgreSQL index refuses others (`search/index.go:156`), but `QdrantIndex` itself does not check.
- The upload id a multipart session records stays accounted for only as long as the provider never
  lists nothing while an upload is open, and the upload of a live session can be aborted by a worker
  that lost its lease, since aborting listed uploads is not fenced
  (`MultipartUpload.UploadIdIsAccountedFor`, `MultipartUpload.LiveUploadIsOpenExactly`). Fencing the
  abort calls alone would not do, because a holder's read of the operation row may be stale
  (`MultipartUpload.CarefulAbortsExactly`).
- A failed AI indexer writes the document's summary without its token. A superseded one leaves the
  summary alone exactly when a version is active; it never becomes the active version itself
  (`AiVersionRows.FailureReachesSummaryExactly`, `AiVersionRows.SupersededBreaksSummary`).
- A query that cuts a word at its edge is missed unless the cut part is a whole word elsewhere in the
  text (`Lexical.RecallExactly`).
- A delivery for a queue the scheduler does not know is dropped without notice
  (`DeliveryScheduling.DeliveryScheduler.Put`).

## Model

| member | source | states |
|---|---|---|
| ObjectProtocol.ReadyObjectsHaveBytes | backend/internal/objectstore/service.go:150-243 | In every state any history reaches, with any number of uploads, verifiers and cleaners and with provider calls that land late and repeatedly, each ready row's key has its bytes and each thumbnail of a ready object has its own |
| ObjectProtocol.ReferencedObjectsAreReadable | backend/internal/objectstore/service.go:366-388 | A row with references is ready and its bytes are stored |
| ObjectProtocol.DeletingKeyIsNeverReused | backend/internal/objectstore/service.go:46-84 | A row that is not ready is never ready again under the key it holds, over every continuation |
| ObjectProtocol.RetirementIsForever | backend/internal/objectstore/service.go:358-364 | A key out of use stays out of use over every continuation: generation keys are never reissued |
| ObjectProtocol.AcquiredRowIsStored | backend/internal/objectstore/service.go:309-356 | CreateOrGet makes a row ready only under a key that is sound, and afterwards every ready row is still stored and versions only advanced |
| ObjectProtocol.FailRetiresTargets | backend/internal/upload/canonical_cleanup.go:23-106 | After a failed upload's cleanup, or a later repetition of it, every copy target of that upload has its bytes or can never be taken by a row again |
| ObjectProtocol.CleanupIsNeeded | backend/internal/upload/service.go:973-988 | Without that cleanup the protocol reaches a ready object whose bytes were never stored: a copy marked succeeded without copying is taken for a fresh copy |
| ObjectProtocol.ThumbnailFencing | backend/internal/media/variant_write.go:18-90 | Once a cleanup claimed a thumbnail's compensation the writer's commit has no effect; once the writer committed no cleanup can claim it |
| ObjectProtocol.ClaimKeepsThumbnails | backend/internal/objectstore/variant_cleanup.go:13-29 | A cleanup's claim keeps every thumbnail guarantee and ends the writer's ownership for good |
| ObjectProtocol.CopyKeepsObjects | backend/internal/upload/service.go:702-746 | Every step of a copy worker, including a claim, a late landing and the skip for an abandoned upload, keeps the object guarantees and changes no row |
| ObjectProtocol.FinalizeKeepsObjects | backend/internal/objectstore/service.go:206-243 | Closing a delete keeps the object guarantees and only advances the row |
| ObjectProtocol.CommitKeepsObjects | backend/internal/upload/service.go:538-612 | Verify's commit keeps every object guarantee for whatever key it prepared earlier |
| ObjectProtocol.KnownContentCommits | backend/internal/upload/service.go:538-612 | In every reachable state a verifying upload whose content is stored already is completed by planning its copy and committing under the row's key; the row stays ready under that key with exactly one reference more, and nothing is copied |
| ObjectProtocol.NewContentCommits | backend/internal/upload/service.go:660-746 | In every reachable state a verifying upload of new content, or of content whose row was deleted, runs through plan, copy and commit: completed, bytes stored, the row ready with one reference, every other row untouched |
| ObjectProtocol.CommitExactly | backend/internal/objectstore/service.go:309-356 | A commit takes effect exactly when the content has no row, is ready, or was deleted and the key is its next generation's; then it completes the upload and adds one reference |
| ObjectProtocol.FailExactly | backend/internal/upload/service.go:629-658 | A failure ends every upload but a completed one and adopts its copy targets |
| ObjectProtocol.OrphanCopyIsDeleted | backend/internal/upload/canonical_cleanup.go:23-73 | In every reachable state the copy a failing upload leaves behind, with no live row for its content, becomes a deleting row with a delete scheduled for that very key |
| ObjectProtocol.CollectExactly | backend/internal/objectstore/service.go:46-84 | In every reachable state collection leaves a referenced row alone and turns a ready one without references into a deleting one whose delete can be started at once |
| ObjectProtocol.CondemnedIsScheduled | backend/internal/objectstore/service.go:46-84 | In every reachable state each deleting row has its scheduled delete, for its own key |
| ObjectProtocol.DeletionCompletes | backend/internal/objectstore/service.go:150-243 | In every reachable state a deleting row whose delete can be started ends deleted, its bytes gone and its operation succeeded, once a worker claims, removes and closes |
| ObjectProtocol.ThumbnailAppears | backend/internal/media/variant_write.go:18-90 | A thumbnail written for a ready object that has none becomes its variant with its bytes stored |
| ObjectProtocol.ThumbnailGoesToo | backend/internal/objectstore/service.go:150-243 | Deleting an object removes its thumbnail's bytes |
| ObjectProtocol.UpkeepExactly | backend/internal/storageops/execution.go:65-84 | Renewals, failures, refunds, stops and retirements change the one operation they are for, as its own state machine does |
| ObjectProtocol.OrphanThumbnailIsRemoved | backend/internal/objectstore/variant_cleanup.go:13-29 | A thumbnail no commit adopted is removed by the cleanup once its lease is over |
| ObjectProtocol.TakeReference | backend/internal/objectstore/service.go:366-376 | On a table backing the protocol's state, taking a reference is the protocol's step |
| ObjectProtocol.DropReference | backend/internal/objectstore/service.go:378-388 | On a table backing the protocol's state, releasing a reference is the protocol's step |
| ObjectProtocol.CollectGarbage | backend/internal/objectstore/service.go:46-84 | On tables backing the protocol's state, garbage collection is the protocol's step |
| ObjectProtocol.CommitObject | backend/internal/upload/service.go:538-612 | On tables backing the protocol's state, CreateOrGet and the reference of a verified upload are the protocol's commit step |
| ObjectProtocol.FailUpload | backend/internal/upload/service.go:629-658 | On tables backing the protocol's state, the adoption loop of a failing upload is the protocol's failure step |
| ObjectRows.UnusableIsForever | backend/internal/objectstore/service.go:358-364 | Rows that only advance never bring an unusable key back |
| ObjectRows.CleanupRetiresTargets | backend/internal/upload/canonical_cleanup.go:23-73 | Adopting a list of orphan targets leaves each unusable or already ready, touches no ready row, and only advances rows |
| ObjectRows.ObjectTable.CreateOrGet | backend/internal/objectstore/service.go:309-356 | Accepts exactly a missing row, a ready one, and a deleted one offered its next generation's key; says being deleted exactly for a deleting row, with each refusal and the new table spelled out |
| ObjectRows.ObjectTable.AddReference | backend/internal/objectstore/service.go:366-376 | Counts a reference exactly when the row is ready |
| ObjectRows.ObjectTable.ReleaseReference | backend/internal/objectstore/service.go:378-388 | Drops one reference unless none is left and reports what remains |
| ObjectRows.ObjectTable.GarbageCollect | backend/internal/objectstore/service.go:46-84 | Condemns exactly an unreferenced, not yet deleted row and schedules the delete named by its new version |
| ObjectRows.ObjectTable.AdoptOrphan | backend/internal/upload/canonical_cleanup.go:34-71 | One orphan copy target becomes a deleting row with a scheduled delete, or is left alone |
| ObjectRows.ObjectTable.RegisterCanonicalCleanup | backend/internal/upload/canonical_cleanup.go:23-73 | The loop over the copy targets performs exactly the adoption of each in turn |
| StorageOps.Budget | backend/internal/storageops/operations.go:234-319 | Over any history attempts equal claims minus shutdown refunds, stay at most 12, never meet the refund's floor, and the lease token is the latest claim's |
| StorageOps.DeadOnlyExhausted | backend/internal/storageops/operations.go:168-213 | Over any history in which nobody retires it, a row dies only with all twelve attempts spent |
| StorageOps.FailureIsRetried | backend/internal/storageops/operations.go:168-213 | After any history the holder's failure below twelve attempts leaves the row failed, not startable before the backoff and startable at every time from five minutes, or the asked delay, on |
| StorageOps.TwelfthFailureKills | backend/internal/storageops/operations.go:168-213 | The failure of the twelfth attempt leaves the row dead over every continuation |
| StorageOps.ShutdownIsFree | backend/internal/storageops/execution.go:65-84 | After any history a shutdown gives the holder's attempt back and the row can be leased at once |
| StorageOps.NothingIsLeftBehind | backend/internal/storageops/operations.go:234-297 | After any history a row neither succeeded nor dead can be started at every time from some moment on, or, with its attempts spent, stopped |
| StorageOps.ClaimTakesLease | backend/internal/storageops/operations.go:234-251 | A claim of a startable row leases it for exactly the time asked, keeps others out for that time, and lets its holder succeed |
| StorageOps.RenewAndRetireExactly | backend/internal/storageops/execution.go:16-60 | When a renewal and a retirement take effect, spelled out by state, token and lease |
| StorageOps.NewIsStartable | backend/internal/storageops/operations.go:91-118 | New work can be started at every time from its creation on, with no attempt spent |
| StorageOps.BackoffTable | backend/internal/storageops/operations.go:168-213 | The pauses between attempts, from one second to five minutes |
| StorageOps.Fencing | backend/internal/storageops/operations.go:134-213 | Only the latest claim's token records an outcome, and after one took effect no outcome does over any further history without a new claim |
| StorageOps.Absorbing | backend/internal/storageops/operations.go:299-319 | Succeeded and dead rows never change again |
| StorageOps.ClaimConditionsAgree | backend/internal/storageops/operations.go:257-297 | The two differently written claim conditions accept the same rows on every reachable row |
| StorageOps.LiveLeaseIsExclusive | backend/internal/storageops/operations.go:234-251 | Whatever other workers and scanners try while a lease, as renewed, still runs, the row stays with its holder, no attempt is spent, and the holder's success counts |
| StorageOps.OperationTable.Enqueue | backend/internal/storageops/operations.go:91-118 | One row per idempotency key; a second enqueue returns the first row unchanged |
| StorageOps.OperationTable.TryStartWithToken | backend/internal/storageops/operations.go:234-251 | Stops an exhausted row, otherwise leases exactly a startable one under the new token |
| StorageOps.OperationTable.ClaimAll | backend/internal/storageops/operations.go:257-297 | Leases each listed row once under its own token and nothing else |
| StorageOps.OperationTable.MarkSucceededOwned | backend/internal/storageops/operations.go:127-161 | Succeeds for the owner, is idempotent on a succeeded row, else reports the lost lease |
| StorageOps.OperationTable.MarkFailedOwned | backend/internal/storageops/operations.go:168-213 | Fails the owner's row below twelve attempts and kills it at the twelfth, with the backoff set; others change nothing |
| StorageOps.OperationTable.RecordError | backend/internal/storageops/execution.go:65-84 | A shutdown returns the attempt, any other error spends it, and only for the owner |
| TaskProtocol.NoOverlap | backend/internal/taskqueue/execution.go:24-49 | With a stop timeout of at least five seconds two handler bodies of one task never overlap, and a running body still owns an unexpired lease |
| TaskProtocol.SafeExactly | backend/internal/taskqueue/timeout.go:13-43 | Bodies never overlap in any run if and only if the stop timeout is at least five seconds |
| TaskProtocol.Overlap | backend/internal/taskqueue/store.go:73-113 | For every shorter positive stop timeout, the concrete run in which a stubborn handler outlives its lease and a second body starts |
| TaskProtocol.Invariant | backend/internal/taskqueue/execution.go:80-231 | Every event keeps the lease cover of each phase, the retry counters and the receipt rules |
| TaskProtocol.ReceiptIsFinal | backend/internal/taskqueue/store.go:48-64 | A receipt never changes, and after it no claim is granted and no handler starts, over every continuation |
| TaskProtocol.SuccessIsRecorded | backend/internal/taskqueue/execution.go:155-196 | In every run the final write of a successful handler that still holds its lease leaves a success receipt and a finished row, and over every continuation the task is answered as already succeeded at any time |
| TaskProtocol.ReceiptHasReason | backend/internal/taskqueue/execution.go:155-231 | In every run a receipt is dead exactly when the step that wrote it was an exhausted, skipped or stuck failure, and a success exactly when it was a successful final write |
| TaskProtocol.FailureIsCounted | backend/internal/taskqueue/execution.go:155-231 | In every run a counted failure below the limit raises the row's counter by exactly one and delays the task accordingly, for a returned handler and for a stuck one |
| TaskProtocol.ShutdownIsFree | backend/internal/taskqueue/execution.go:155-196 | In every run a handler ended by a shutdown costs no retry and the task is granted at once |
| TaskProtocol.GrantedExactly | backend/internal/taskqueue/execution.go:80-152 | In every reachable state without a receipt a delivery is granted exactly when there is no row, its lease is over, or its delay has passed |
| TaskProtocol.JudgeExactly | backend/internal/taskqueue/execution.go:80-152 | What a delivery is told, for every row, receipt, payload and time |
| TaskProtocol.WritableExactly | backend/internal/taskqueue/execution.go:155-196 | A holder may write exactly while its running row keeps others out |
| TaskProtocol.OtherPayloadConflicts | backend/internal/taskqueue/execution.go:80-152 | In every reachable state another payload under the same id is a conflict |
| TaskProtocol.DelaysGrow | backend/internal/taskqueue/taskqueue.go:224-232 | Retry delays grow from one second to five minutes and never fall |
| TaskProtocol.HealthyTaskSucceeds | backend/internal/taskqueue/execution.go:80-196 | A granted delivery whose calls return in time runs its handler and records its success |
| TaskProtocol.RenewalCarriesOn | backend/internal/taskqueue/execution.go:24-49 | A running body that renews on time holds the row past its next tick |
| TaskProtocol.CrashedTaskIsTakenOver | backend/internal/taskqueue/execution.go:80-152 | In every run a worker that exits keeps others out no longer than its lease: from then on the task is granted |
| TaskProtocol.RetryStep | backend/internal/taskqueue/execution.go:155-231 | The execution row survives every step, its retry count never goes down and never passes the larger of the message's counters |
| TaskProtocol.ExhaustedIsDead | backend/internal/taskqueue/execution.go:155-231 | A counted failure at the retry limit, of a returned handler or of a stuck one, leaves a dead receipt in the same step, no claim is ever granted again and every later one is told the task is dead; the returned handler's row is finished, the stuck one's keeps its lease and counter |
| TaskProtocol.RecoveryIsSafe | backend/internal/outbox/execution_recovery.go:88-136 | The finished-without-receipt branch is unreachable; a replay happens only without a receipt and with no handler running or admitted, would be admitted, and keeps the retry count |
| TaskProtocol.RecoveryFinds | backend/internal/outbox/execution_recovery.go:88-136 | A published delivery is replayed exactly when it is old, without receipt, and its execution is missing, past its lease or long overdue; a receipt is reported for what it is |
| TaskProtocol.ClaimStep | backend/internal/taskqueue/execution.go:80-152 | On a store backing the protocol's state, Claim is the protocol's claim step |
| TaskProtocol.FinishStep | backend/internal/taskqueue/execution.go:155-196 | On a store backing the protocol's state, Finish is the protocol's committing step |
| TaskProtocol.StuckStep | backend/internal/taskqueue/execution.go:198-231 | On a store backing the protocol's state, RecordStuck is the protocol's step for a handler that ignores cancellation |
| TaskRows.Store.Claim | backend/internal/taskqueue/execution.go:80-152 | The verdict in order of conflict, receipt, busy, finished, and the claimed row for a granted one |
| TaskRows.Store.Finish | backend/internal/taskqueue/execution.go:155-196 | Takes effect exactly for the holder of an unexpired lease, with the row and receipt for success, retry, shutdown and terminal failure |
| TaskRows.Store.InsertReceipt | backend/internal/taskqueue/store.go:48-64 | An existing receipt is left alone |
| TaskRows.Store.RecordStuck | backend/internal/taskqueue/execution.go:198-231 | Keeps the lease running past the exit, counts the failure unless shutting down or the lease was lost, and leaves a dead receipt at the limit |
| DeliverySettlement.HandleDelivery | backend/internal/taskqueue/taskqueue.go:441-519 | The broker calls made are exactly those the outcome calls for, whichever of them fail |
| DeliverySettlement.SettledOnce | backend/internal/taskqueue/taskqueue.go:441-519 | Every delivery is settled exactly once and last; acknowledged exactly after success or a confirmed copy; the copy's counter never goes down and is raised only below the limit |
| DeliverySettlement.PlaceExactly | backend/internal/taskqueue/taskqueue.go:441-519 | Where a failed delivery goes when its calls succeed: back untouched, to the delayed queue with its counter as it was or raised by one, or to the dead letters only for a conflict, a dead task or at the limit |
| DeliverySettlement.RetriesAreUsed | backend/internal/taskqueue/taskqueue.go:441-519 | A task that always fails is delivered exactly once more than its remaining retries before it is dead-lettered |
| DeliverySettlement.NeverLost | backend/internal/taskqueue/taskqueue.go:441-519 | Over any number of deliveries the broker holds at least the copies it started with less the recorded successes |
| RoundRobin.PickIsFirstBest | backend/internal/taskqueue/scheduler.go:57-94 | The scan selects the first queue of greatest charged credit among the backlogged |
| RoundRobin.CreditIsDebt | backend/internal/taskqueue/scheduler.go:57-94 | Credit is exactly the service owed, scaled by the total weight |
| RoundRobin.RoundServes | backend/internal/taskqueue/scheduler.go:57-94 | From zero credit one round serves every queue exactly its weight |
| RoundRobin.Fairness | backend/internal/taskqueue/scheduler.go:57-94 | After any number of takes credits sum to zero and exceed minus the total weight, and any window of total-weight takes serves each queue exactly its weight |
| DeliveryScheduling.DeliveryScheduler.constructor | backend/internal/taskqueue/scheduler.go:26-41 | Empty queues in name order, zero credit, weights below one read as one |
| DeliveryScheduling.DeliveryScheduler.Put | backend/internal/taskqueue/scheduler.go:42-53 | Appends to the named queue and drops a delivery for an unknown one |
| DeliveryScheduling.DeliveryScheduler.Charge | backend/internal/taskqueue/scheduler.go:57-76 | The scan in place charges the backlogged queues, clears the others and finds the selected queue and total |
| DeliveryScheduling.DeliveryScheduler.Take | backend/internal/taskqueue/scheduler.go:57-94 | Serves the head of the selected queue, or blocks exactly when nothing is queued |
| DeliveryScheduling.FifoConservation | backend/internal/taskqueue/scheduler.go:42-94 | Under any interleaving each queue hands out its arrivals in order and the rest is still queued: nothing lost, duplicated or reordered |
| DeliveryScheduling.SchedulerFairness | backend/internal/taskqueue/scheduler.go:26-94 | The fairness theorem for the real queues under a steady backlog, after any prefix |
| DeliveryScheduling.WaitIsBounded | backend/internal/taskqueue/scheduler.go:55-94 | From zero credit and after any history, however the other queues fill and empty, a backlogged queue is passed over only until its weight times the takes, plus its credit, reaches the number of queues times the sum of all weights |
| DeliveryScheduling.IdleStartsAtZero | backend/internal/taskqueue/scheduler.go:55-70 | A queue a take finds empty carries no credit into its next wait |
| RoundRobin.GainsAreBounded | backend/internal/taskqueue/scheduler.go:55-94 | Under any change of backlog the positive credits never sum to more than the number of queues times the sum of all weights |
| Ledger.CloseKeeps | backend/internal/identity/service.go:229-239 | Releasing what a session holds never meets the clamp at zero and keeps both counters exact and within quota |
| Ledger.DropKeepsCounters | backend/internal/identity/service.go:254-257 | Removing an entry's size never meets the clamp and keeps both counters exact |
| Ledger.DropKeepsObjects | backend/internal/objectstore/service.go:378-388 | A live entry's object has a reference to give up and is ready; reference counts stay exact |
| Ledger.EntryKeepsCounters | backend/internal/identity/service.go:241-252 | A new entry that fits keeps both counters exact and within quota |
| Ledger.EntryKeepsObjects | backend/internal/objectstore/service.go:366-376 | A new entry with its reference keeps every reference count equal to the number of live entries |
| Ledger.LiveIsReady | backend/internal/drive/files.go:74-78 | A live entry's object is ready, so the lookup before a delete or an import cannot fail |
| Ledger.HeldMeans | backend/internal/objectstore/service.go:271-279 | The two ownership lookups say exactly what the user's own live entries hold |
| Ledger.HoldingsAreOwn | backend/internal/objectstore/service.go:271-279 | An entry and its deletion change its owner's holdings and no other user's |
| Ledger.AdoptedExactly | backend/internal/upload/canonical_cleanup.go:23-73 | What the adoption of a failed upload's copy does to every object, spelled out by status |
| Ledger.AcquireKeeps | backend/internal/objectstore/service.go:309-356 | Finding, reviving or adding the verified content's row keeps reference counts and the one-row-per-content rule |
| Ledger.VerifyingKeepsEvents | backend/internal/upload/service.go:1150-1168 | Entering verification leaves that session with exactly one verification request |
| Ledger.Accounts.Create | backend/internal/upload/service.go:150-279 | Idempotent per user and key; reserves the size and answers with the session exactly when it fits and the user's own live entries do not hold the content, whatever other users hold; the branch for content the owner already holds always fails |
| Ledger.Accounts.AddEntry | backend/internal/upload/service.go:200-236 | Quota, entry and reference move together or not at all |
| Ledger.Accounts.UploadCreated | backend/internal/upload/service.go:909-921 | Only an initializing session becomes created |
| Ledger.Accounts.Complete | backend/internal/upload/service.go:375-415 | Only a created or uploading session with all parts and an upload id starts completing; a repeat is accepted |
| Ledger.Accounts.StartVerifying | backend/internal/upload/service.go:1115-1169 | Completing becomes verifying once with one event, whichever of the two writers gets there; later calls change nothing |
| Ledger.Accounts.CommitVerified | backend/internal/upload/service.go:538-612 | Succeeds exactly when the names and the content's row allow it, and then turns exactly the reserved bytes into used bytes for one new referenced entry |
| Ledger.Accounts.Fail | backend/internal/upload/service.go:629-658 | Only a verifying session fails, giving back exactly what it held; a content its copies left behind becomes a row to be deleted |
| Ledger.Accounts.ReconcileOrphan | backend/internal/upload/canonical_cleanup.go:75-106 | The same adoption for an ended session, and nothing for any other |
| Ledger.Accounts.Abort | backend/internal/upload/service.go:417-448 | Aborts from every status before completing and from expired, gives back exactly what was held, refuses later statuses |
| Ledger.Accounts.Expire | backend/internal/upload/service.go:471-506 | Expires exactly a due session that has not started completing |
| Ledger.Accounts.Retire | backend/internal/upload/retry_cleanup.go:32-90 | Fails exactly a stopped initializing or completing session and gives back what it held |
| Ledger.Accounts.Import | backend/internal/sharing/service.go:222-282 | One entry per user, share and key; quota, entry, reference and the import row move together; succeeds exactly when the share, the source, the names and the quota allow |
| Ledger.Accounts.DeleteEntry | backend/internal/drive/files.go:64-112 | Entry, reference and quota in one step, with collection asked for exactly at zero references |
| Ledger.Accounts.Collect | backend/internal/objectstore/service.go:46-84 | Schedules a delete for exactly the unreferenced objects not yet deleted, condemns a ready one, and keeps all totals |
| LedgerTables.TerminalIsFinal | backend/internal/upload/service.go:375-506 | In every run of session tables whose consecutive states are steps of the transactions, completed, failed and aborted never change, expired becomes only aborted, and verification starts at most once |
| LedgerRuns.Perform | backend/internal/upload/service.go:150-658 | Any sequence of the transactions by any users, with verifiers acting on session rows read at any earlier state, keeps counters, references, events and keys exact and makes such a run |
| MultipartUpload.UploadIdIsAccountedFor | backend/internal/upload/service.go:844-1057 | Over every interleaving of reads, claims, provider calls and crashes, a succeeded multipart.create's recorded upload is held by the session or named by an abort, and with none recorded the session had ended, if and only if the provider never lists nothing while an upload is open |
| MultipartUpload.LiveUploadIsOpenExactly | backend/internal/upload/service.go:1059-1101 | The upload a live session holds is still open at the provider in every run if and only if listings are so and workers call the provider only under the lease |
| MultipartUpload.HeldIsOpenUnlessAborted | backend/internal/upload/service.go:1059-1101 | In every single run the upload a live session holds is open if and only if none of the run's abort calls in recovery was for it |
| MultipartUpload.CarefulAbortsExactly | backend/internal/upload/service.go:1083-1101 | With provider calls unfenced, as in the code, and whatever listings leave out: the held upload is open in all runs whose abort calls are made with care if and only if care means both holding the lease and an operation row that records no upload yet |
| MultipartUpload.LeaseIsNotEnough | backend/internal/upload/service.go:844-871 | The run in which the lease holder, from a stale read of the operation row, aborts the recorded upload |
| MultipartUpload.BlankRowIsNotEnough | backend/internal/upload/service.go:1083-1101 | The run in which a worker without the lease aborts the upload its holder is about to record |
| MultipartUpload.ListingMisses | backend/internal/upload/service.go:844-871 | The run in which a worker's stale read and an empty listing leave a recorded upload unaccounted for |
| MultipartUpload.UnfencedAborts | backend/internal/upload/service.go:1083-1101 | The run in which a worker that lost its lease lists two uploads and aborts the one the live session holds |
| MultipartUpload.UploadIsHandedOver | backend/internal/upload/service.go:1006-1057 | For every setting a run in which a worker creates an upload, records it and hands it to the live session, open at the provider |
| MultipartUpload.SessionsEnd | backend/internal/upload/service.go:375-448 | In every reachable state a live session can end: an abort closes exactly its upload, a completion takes it over and leaves the session to verification |
| MultipartUpload.LateUploadIsAborted | backend/internal/upload/service.go:1038-1057 | A worker that finishes after its session ended leaves an abort for exactly the upload it recorded |
| MultipartUpload.DeadOperationsEnd | backend/internal/upload/retry_cleanup.go:32-90 | An exhausted creation ends its session and leaves an abort for the recorded upload |
| MultipartUpload.ScannersSettle | backend/internal/upload/service.go:876-944 | A succeeded creation brings its session to life with the recorded upload; a stopped completion ends it and leaves an abort |
| FolderTree.MoveGuardIsExact | backend/internal/drive/service.go:508-572 | Moving a folder leaves the owner's live folders a tree if and only if the target is not in its subtree |
| FolderTree.DeleteGuardIsExact | backend/internal/drive/service.go:590-608 | Deleting a folder leaves a tree if and only if no live folder hangs below it |
| FolderTree.NoCycle | backend/internal/drive/service.go:530-544 | No folder that reaches the root reaches itself |
| FolderTree.OneDepth | backend/internal/drive/service.go:391-411 | Each live folder reaches an ancestor in exactly one number of steps |
| FolderTree.RootedMeans | backend/internal/drive/service.go:88-108 | One live parentless root, every other live folder under another live folder |
| FolderTree.Descendants | backend/internal/drive/service.go:531-541 | The recursive query terminates on a tree and returns exactly the folders that reach the start through live rows |
| FolderTree.Breadcrumb | backend/internal/drive/service.go:391-411 | Terminates with the root-to-folder path exactly for a live folder |
| DriveTree.Drive.constructor | backend/internal/drive/service.go:88-100 | A new owner has the tree of one root |
| DriveTree.NormalizedExactly | backend/internal/drive/service.go:805-811 | A name surrounded by blanks is its lower case, refused exactly when empty, too long, a dot name or holding a slash, a backslash or a zero |
| DriveTree.RawNameSplits | backend/internal/drive/service.go:805-811 | Every raw name is of that form, so the rule covers all names |
| DriveTree.NamesCollideExactly | backend/internal/drive/service.go:379-389 | A name is taken exactly when another live sibling of the same kind has it |
| DriveTree.HeldExactly | backend/internal/drive/service.go:623-660 | A content is taken exactly while a live entry of the owner has it |
| DriveTree.Drive.Create | backend/internal/drive/service.go:417-457 | Exact result for every error in order, the tree and unique names kept, the epoch moved once |
| DriveTree.Drive.Rename | backend/internal/drive/service.go:463-502 | Exact result, root refused, version and name conflicts, tree and names kept |
| DriveTree.Drive.Move | backend/internal/drive/service.go:508-572 | Exact result, refusal exactly into the own subtree, tree and names kept |
| DriveTree.Drive.Delete | backend/internal/drive/service.go:578-621 | Exact result, only an empty folder goes, tree kept |
| DriveTree.Drive.CreateFile | backend/internal/drive/service.go:623-660 | Exact result, in a live folder, one live entry per content and per name |
| DriveTree.Drive.RenameFile | backend/internal/drive/service.go:709-749 | Exact result with version and name conflicts |
| DriveTree.Drive.MoveFile | backend/internal/drive/service.go:755-795 | Exact result, only into a live folder |
| DriveTree.Drive.DeleteFile | backend/internal/drive/files.go:64-83 | Exact result with the version fence |
| DriveHistory.DriveCallsMakeHistory | backend/internal/ownerepoch/epoch.go:51-65 | After any sequence of drive calls on one owner, refused or committed, whatever any folder showed at the committed states is a history in which an equal content epoch means an equal listing |
| DriveHistory.SortedOnce | backend/internal/drive/service.go:315-318 | A set of rows has no two sorted listings |
| DriveHistory.EveryFolderShows | backend/internal/drive/service.go:288-336 | Every folder has its listing at every committed state, in the order of the queries |
| DriveHistory.ShowsExactly | backend/internal/drive/service.go:288-336 | A folder's listing shows exactly its live child folders and its live files with ready content, under their names and versions |
| Pagination.WalkIsSnapshot | backend/internal/drive/service.go:138-247 | A walk from the first page, cached or not, to the last without a stale cursor returns exactly the folders-then-files listing of one committed state, for any page sizes and both orders |
| Pagination.WalkIsInOrder | backend/internal/drive/service.go:299-324 | In a completed walk no file comes before a folder, and within a kind names rise under name_asc and fall under name_desc, equal names by their ids the same way |
| Pagination.WalkIsComplete | backend/internal/drive/service.go:138-247 | A completed walk holds exactly the folders and files of one committed state, each once |
| Pagination.Defaults | backend/internal/drive/service.go:154-163 | A request that names no limit and no sort gets fifty rows by rising name |
| Pagination.WalkStaysAtEpoch | backend/internal/drive/service.go:180-189 | Every page of such a walk comes from the same epoch, and every page but the last is full |
| Pagination.EpochFences | backend/internal/ownerepoch/epoch.go:51-81 | Two reads of one content epoch bracket an unchanged listing |
| Pagination.FencedReads | backend/internal/drive/service.go:191-202 | Two tables read at different moments between equal epochs make one state's window |
| Pagination.QueriesSplitRest | backend/internal/drive/service.go:288-324 | The two keyset queries together are the remainder of the whole listing after the cursor, for either kind of cursor |
| Pagination.Window | backend/internal/drive/service.go:203-207 | One extra row per query fills the page and decides whether more follow |
| Listing.RestResumes | backend/internal/drive/service.go:299-314 | A cursor at the k-th item resumes exactly at the next: nothing skipped, nothing repeated |
| Pagination.LoadChildrenPage | backend/internal/drive/service.go:288-336 | The loops return the folder rows, then the file rows, in the order asked for |
| Pagination.Load | backend/internal/drive/service.go:191-220 | Stale exactly when the epochs differ, else the right page with its cursor |
| Pagination.Reader.ChildrenPageOnce | backend/internal/drive/service.go:154-247 | Each error exactly when due; a served page is right for a committed state at the cursor's epoch; the cache stays sound |
| Pagination.Reader.ChildrenPage | backend/internal/drive/service.go:138-152 | A first page is never stale |
| ProjectionFence.ConvergesExactly | backend/internal/search/index.go:174-191 | Every order with any repetition of a set of file documents ends in a given one if and only if it leads all watermarks, a tombstone winning a version tie, and no other document has its marks |
| ProjectionFence.OnlyAdvances | backend/internal/search/index.go:190 | No later write moves a watermark back or revives a tombstone at the same version |
| ProjectionFence.ContentConverges | backend/internal/search/index.go:152-165 | Deliveries of one chunk's documents always end at the same epoch and liveness, in one of the documents |
| PostgresProjection.Index.UpsertFile | backend/internal/search/index.go:174-191 | Refuses a non-positive epoch, defaults the access version, otherwise stores exactly what the fence allows |
| PostgresProjection.Index.UpsertContent | backend/internal/search/index.go:152-165 | Refuses a non-positive epoch, otherwise stores exactly what the fence allows |
| PostgresProjection.Index.TombstoneFile | backend/internal/search/index.go:211-213 | Marks an existing row at or below the version, and nothing without a row |
| PostgresProjection.Index.TombstoneObjectContent | backend/internal/search/index.go:200-202 | Marks exactly the object's rows at or below the epoch |
| PostgresProjection.DeletionHoldsExactly | backend/internal/search/index.go:211-213 | A file deletion holds against all later writes of older versions if and only if the row existed |
| PostgresProjection.ContentDeletionHoldsExactly | backend/internal/search/index.go:200-202 | A deletion of an object's content holds for a chunk against all later writes of older or equal epochs if and only if the chunk's row existed, or no accepted epoch is that old |
| ElasticProjection.ScriptIsUpsert | backend/internal/search/external_fencing.go:15-26 | On full file documents the script accepts and stores exactly what the relational predicate does |
| ElasticProjection.BackendsAgreeOnFiles | backend/internal/search/external_fencing.go:43-48 | After any sequence of file upserts both backends hold the same document |
| ElasticProjection.DeletionAlwaysHolds | backend/internal/search/external.go:162-164 | A deletion marker, even one that arrives first, is undone only by a strictly newer version |
| ElasticProjection.ContentAgreesExactly | backend/internal/search/external_fencing.go:32-41 | Content documents agree with the rows in every order if and only if the winner settles and has an embedding or no document has one |
| ElasticProjection.KeepVisible | backend/internal/search/external_fencing.go:97-103 | The filter over its own input leaves exactly the surviving candidates in order |
| ElasticProjection.SurvivingExactly | backend/internal/search/external_fencing.go:97-103 | A candidate stays exactly when no deletion of its object reaches its epoch, each decided for itself and in place |
| ElasticDeletion.SurvivesExactly | backend/internal/search/external_fencing.go:50-103 | The marker lookup passes exactly the candidates whose epoch is above every deletion of their object so far |
| ElasticDeletion.SweepExactly | backend/internal/search/external.go:144-160 | A sweep turns exactly the object's chunks at or below the epoch that it finds into tombstones |
| ElasticDeletion.ServedExactly | backend/internal/search/external.go:144-160 | For every order of puts, deletions and update-by-query sweeps, whatever the sweeps miss, a chunk is served if and only if one of its live documents is ahead of all its others and of every deletion of its object |
| QdrantView.ViewIsExact | backend/internal/search/qdrant_fencing.go:18-67 | A point's epoch is at least one if and only if, for every interleaving and repetition of puts, deletions, lookups and masks, it is visible exactly when put and not covered by a deletion |
| QdrantView.SearchVector | backend/internal/search/external.go:389-423 | Drops from the server's hits as the lookup does, and reports failure rather than fewer points than wanted when the hits came to the limit asked for; over unchanging records exactly when it fails |
| QdrantView.SearchSpansItsTime | backend/internal/search/external.go:389-423 | In every run, whatever requests fall between its pages, a search with a limit and an epoch filter returns only points put and not deleted before it began, and every one of the server's hits not deleted before it ended |
| QdrantView.SearchMissesNothing | backend/internal/search/external.go:389-423 | If the server returns fewer points than asked for only when there are no more, a search that succeeds returns every matching point put before it began and not deleted before it ended, or as many points as were wanted |
| QdrantView.MasksReach | backend/internal/search/qdrant_fencing.go:34-67 | A deletion's mask and the mask after a put's lookup hide the point they are for |
| QdrantView.LimitsExactly | backend/internal/search/external.go:389-401 | How many points are asked for: fifty by default, at most two hundred, never fewer than wanted |
| QdrantView.LookupIsNaiveExactly | backend/internal/search/qdrant_fencing.go:116-121 | The lookup equals the naive check on every set of records if and only if the candidate's epoch is at least one |
| QdrantView.LookupMissesEpochZero | backend/internal/search/qdrant_fencing.go:116-121 | For every candidate of epoch zero or less, a covering record of epoch zero the lookup does not see |
| QdrantView.FoldIsExact | backend/internal/search/qdrant_fencing.go:76-138 | Filtering by the smallest epoch, paging and folding to maxima lose no relevant record there at the start and hide nothing without a record there at the end |
| QdrantView.Scroll | backend/internal/search/qdrant_fencing.go:94-126 | With every page read from what the server holds by then, misses no record that was there at the first page, invents none, and fails only beyond sixteen pages of 256 and always when more were there at first |
| QdrantView.VisibleCandidates | backend/internal/search/qdrant_fencing.go:76-138 | Drops every candidate hidden when the lookup begins and none not hidden when it ends, hence exactly the hidden ones if nothing is written meanwhile; fails only with more than 4096 matching records |
| QdrantView.MatchCountMeans | backend/internal/search/qdrant_fencing.go:76-126 | The records whose number decides a lookup's failure are those about an object or chunk of some candidate and not below the least epoch among them |
| AiVersionRows.ActiveOnlyAdvances | backend/internal/ai/service.go:231-299 | Over any run the active generation only grows and a version that stopped building never builds again |
| AiVersionRows.StartExactly | backend/internal/ai/service.go:503-559 | A start is kept out exactly by a live building lease or by a current version it does not override; otherwise it opens the next generation under its token and turns expired builders into failures |
| AiVersionRows.BuilderPublishes | backend/internal/ai/service.go:231-299 | After any run, a builder let in still publishes after whatever others try within its lease, and readers then follow its version |
| AiVersionRows.PublishExactly | backend/internal/ai/service.go:261-287 | What publishing, refusing and failing under the own token leave of every version, the active one and the summary |
| AiVersionRows.SupersededNeverActive | backend/internal/ai/service.go:499-503 | A version that was superseded, failed or refused never becomes the active one |
| AiVersionRows.FailureReachesSummaryExactly | backend/internal/ai/service.go:646-658 | In every reachable state a failing indexer, superseded or not, leaves the summary alone whatever it says if and only if a version is active |
| AiVersionRows.SupersededBreaksSummary | backend/internal/ai/service.go:646-658 | The run in which an indexer whose lease expired reports its failure over the summary of its successor |
| AiVersions.Document.Start | backend/internal/ai/service.go:503-559 | Current, busy or the next generation, with an expired builder turned into failed history |
| AiVersions.Document.Touch | backend/internal/ai/service.go:576-590 | Extends exactly an unexpired lease of the building version |
| AiVersions.Document.RetireOthers | backend/internal/ai/service.go:277-280 | Retires exactly the version readers followed |
| AiVersions.Document.Publish | backend/internal/ai/service.go:261-287 | Only the building version's token makes its version active, of a higher generation, retiring the old one in the same step |
| AiVersions.Document.FinishUnsupported | backend/internal/ai/service.go:607-644 | Fenced by the token; the summary returns to the version readers still see |
| AiVersions.Document.FinishFailed | backend/internal/ai/service.go:646-658 | Only the holder changes the version; the summary is written without the token |
| RecoveryScan.SixScansAreFair | backend/internal/recovery/reconciler.go:95-114 | Over six consecutive scans every class gets exactly the limit, from any rotation |
| RecoveryScan.OneScanIsBounded | backend/internal/recovery/reconciler.go:101-110 | One scan hands out exactly the limit in all |
| RecoveryScan.EveryRowIsScanned | backend/internal/recovery/reconciler.go:125-155 | From any cursor, ceil(n/L)+1 pages of at least L rows return every one of n candidates |
| RecoveryScan.Reconciler.RunOnce | backend/internal/recovery/reconciler.go:79-116 | The slots of one scan and the rotation by one |
| RecoveryScan.Reconciler.ScanPage | backend/internal/recovery/reconciler.go:127-155 | The page past the cursor, wrapping when empty, and the new cursor |
| RecoveryFamily.BudgetIsFinal | backend/internal/recovery/reconciler.go:424-473 | A recovery family never holds more than three events and none is added after it stopped |
| RecoveryFamily.AddsExactly | backend/internal/recovery/reconciler.go:418-507 | What one call does to the family: nothing when stopped or active, the stop at three events unless the operation runs, otherwise one event more unless the last is recent or the key is taken |
| RecoveryFamily.ThreeThenStop | backend/internal/recovery/reconciler.go:418-507 | Work that stays lost gets exactly three events, the next scan stops the family, and over every continuation it stays as it is |
| RecoveryFamily.Family.Ensure | backend/internal/recovery/reconciler.go:418-507 | Exactly when an event is created, the family stopped, and the operation killed |
| Lexical.Analyze | backend/internal/textsearch/lexical.go:24-63 | The buffered loop produces exactly the terms each position contributes, in order |
| Lexical.WordTermsAreRuns | backend/internal/textsearch/lexical.go:41-43 | Word terms are exactly the maximal runs of letters and numbers |
| Lexical.HanTermsAre | backend/internal/textsearch/lexical.go:32-40 | Han terms are exactly the adjacent pairs and the single characters, in a query only those that stand alone |
| Lexical.KindsExactly | backend/internal/textsearch/lexical.go:32-70 | Which code points count as Han, and that the other letters and numbers, and only those, make words |
| Lexical.RecallExactly | backend/internal/textsearch/lexical.go:21-63 | All terms of a query that occurs in the text are index terms of it if and only if each word the query cuts at its edges is also a whole word of the text |
| Lexical.QueryTermsAreIndexed | backend/internal/textsearch/lexical.go:21-63 | A query that occurs in the text without cutting a word run loses none of its terms |
| Lexical.CutWordIsMissed | backend/internal/textsearch/lexical.go:41-43 | A one-word query that cuts a word is found only where its letters are a word of their own |
| TermKeys.KeysAreFaithful | backend/internal/textsearch/lexical.go:72-81 | Keys are short, hold no space, and coincide only for equal terms or equal digests of two long ones |
| TermKeys.JoinIsLossless | backend/internal/textsearch/lexical.go:62 | Splitting the joined keys at spaces gives the keys back |
| Outbox.OutboxInvariant | backend/internal/outbox/dispatcher.go:454-594 | Over every run, from whatever deliveries it finds, under current or legacy names, none disappears and no second delivery for a task is added, so that distinct tasks stay distinct, and the event is published only while all its deliveries are |
| Outbox.LegacyRowsServe | backend/internal/outbox/routes.go:92-124 | A task that some delivery stood for from the start, under whatever name, never gets another |
| Outbox.PublishedOnlyAfterConfirmation | backend/internal/outbox/dispatcher.go:454-594 | In every run, from whatever deliveries it finds, a published delivery was published all along or last published by a relay that then held its token, and that relay, unless already at work when the run began, had claimed it and in between had a confirmed publish or found AI off |
| Outbox.RelayHistory | backend/internal/outbox/dispatcher.go:510-549 | A relay that began in the run has its claim behind it and, if told to acknowledge, its confirmed send after it |
| Outbox.LostClaimIsPowerless | backend/internal/outbox/dispatcher.go:555-684 | A relay whose claim was taken over changes nothing, whether it acknowledges, fails or releases |
| Outbox.DueGoesOut | backend/internal/outbox/dispatcher.go:454-571 | A due delivery that is claimed, sent with confirmation and settled by its relay is published, and the event with the last one |
| Outbox.WrittenIsDue | backend/internal/outbox/outbox.go:332-363 | A delivery as written is due at every time from its pinned deadline on |
| Outbox.ClaimsEnd | backend/internal/outbox/dispatcher.go:555-684 | Whatever a relay was told, its settlement publishes the row or makes it due again exactly from the backoff on; without one the row is due exactly when the lease is over |
| Outbox.NothingIsLeftBehind | backend/internal/outbox/dispatcher.go:465-507 | In every run a delivery with a pinned deadline is published or due at every time from some moment on |
| Outbox.ReplayGoesOutAgain | backend/internal/outbox/execution_recovery.go:125-135 | A replayed delivery is due again at once, the event open again, and no other delivery touched |
| Outbox.AddedKeepsDistinct | backend/internal/outbox/outbox.go:332-363 | Adding routes keeps every row, serves every route and adds no alias of a delivery, from any rows |
| Outbox.Event.AddDeliveries | backend/internal/outbox/outbox.go:332-363 | The nested loops add exactly the missing routes |
| Outbox.Event.Pin | backend/internal/outbox/dispatcher.go:441-451 | The deadline of an unpublished row is written once |
| Outbox.Event.Claim | backend/internal/outbox/dispatcher.go:465-507 | Claims exactly a row past its deadline that is available or whose lease is over, under the new token |
| Outbox.Event.Acknowledge | backend/internal/outbox/dispatcher.go:555-571 | Publishes the holder's row, and the event exactly with the last one |
| Outbox.Event.GiveBack | backend/internal/outbox/dispatcher.go:577-594 | Gives back exactly the holder's own claim, with a backoff after a failure and at once after a release |
| Outbox.Event.Replay | backend/internal/outbox/execution_recovery.go:125-135 | Re-pends exactly a published row, keeping its identity and the execution's retry count |
| OutboxRoutes.CanonicalNamesAreStable | backend/internal/outbox/routes.go:92-124 | Reading a destination twice gives the same target: canonical names are fixed points |
| OutboxRoutes.RoutesAreCanonical | backend/internal/outbox/routes.go:36-90 | Every registered target is canonical already |
| OutboxRoutes.EventsReachTasks | backend/internal/outbox/routes.go:55-90 | Which event starts which task in which queue |
| OutboxRoutes.SwitchesAreSeparate | backend/internal/outbox/routes.go:36-90 | The AI and search switches add their own deliveries and touch no others, and no event has a target twice |
| OutboxRoutes.OldNamesAreRoutes | backend/internal/outbox/routes.go:107-124 | Exactly five legacy names are renamed, each to a registered target |

## Left out

- HTTP handlers, gRPC, OpenAPI types, command wiring, metrics, tracing and the web interface: no state of their own.
- AMQP connections and topology, object-store clients and search-engine transport: free steps that may fail or land late.
- SQL isolation below one transaction at a time: every transaction is atomic here, including those that run at read committed.
- Freedom from leaked bytes: copies and multipart uploads of dead workers may stay behind; the code aims only at the safety of live objects.
- Hashing, signatures, passwords, Unicode normalisation, JSON and base64: injective or abstract, so cursors arrive decoded or undecodable; white space, lower case and encoded length of drive names are parameters.
- Language models, embeddings, document parsing, image scaling and ranking scores: foreign libraries or floating point.
- Small arithmetic such as backoff jitter, poll intervals and part sizes: it would only add easy members.
- Message envelopes with negative counters or without an id: dead-lettered without running a handler; the failure record they may leave is not part of this model.
- The deletes, copies and thumbnails of `ObjectProtocol` are modelled on values, since their steps belong to many workers at once; updates in place are shown by the classes of `ObjectLifecycle.dfy`.
- Task execution across workers, outbox relays and multipart creation are likewise state machines on values beside their row classes.
- The unowned variants of marking an operation succeeded or failed: nothing calls them.
- Sorting the scheduler's queue names: its constructor takes them sorted.
- RecoveryScan.EveryRowIsScanned: stated for a candidate set that does not change between the pages, as rows that come and go may move past a cursor.
- RecoveryFamily.BudgetIsFinal: the recovery row an upload operation registers for itself at creation counts as the family's base row.
- Which deliveries RecoverDelivery and RecoverPublishedBatch pick for an aggregate or a batch: each picked row goes through the modelled check and write.
- RunOwned's renewal timer appears only as renewals that may happen at any time before the lease ends.
- Search index versions and their activation, share creation and revocation, refresh sessions: their guards are of the kind shown elsewhere.
