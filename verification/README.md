# Coordination model

A model, in Dafny, of the parts of codex-swarm that have to be right when things fail: the cross-host relay, the
single launch of a worker's first turn, the Codex task index, and four smaller algorithms of the ledger. Each part
states what the code promises over every run, and proves it. `dafny verify dfyconfig.toml` checks the whole project.

## What is modelled

**The relay** (`Relay*.dfy`). A central coordinator keeps tasks, messages, claim attempts and receipts. Each receiving
host keeps a durable journal and runs one cycle at a time under the journal's lock: pick the pending entry or open a
new one, claim, inspect, check local enrolment, journal `dispatching`, submit to Codex, journal the outcome, report.

- `RelayTables` holds the tables and every atomic statement batch as a function. Two columns record history for the
  proofs only: `born` (every row ever inserted; a row's `life` is its place there) and `leases` (which attempt took a
  lifetime out of the queue). `RelayLease` and `RelayReceipts` prove what each batch and the retention job keep.
- `RelayHandlers` cuts every request at its database round trips (read, batch, read-back); other handlers may run
  between any two. `RelayService` is the same coordinator as an object whose methods update its tables, and each
  method is proved equal to the undisturbed run of its handler.
- `RelayRunner` is the receiving cycle cut at every effect, and `RelayReceiver` the same cycle as a program over a
  journal object; the program's every execution is a run of the cut cycle.
- `RelayWorld` joins coordinator, journals and processes into one machine whose events are all that can happen: other
  clients, lost requests and responses, saves that fail or fail ambiguously, process deaths, retention, enrolment.
  `RelaySafety`, `RelayCycle` and `RelayReach` prove its invariant; `RelayPromises`, `RelayCrash`, `RelayProgress`,
  `RelayRecovery` and `RelayDelivery` draw the promises from it, the last by building the runs; `RelayExceptions`
  builds the runs in which a recorded submission is untrue. `RelayEvidence` and `RelayTrails` say what a receiver's
  receipt means and what a cycle was told before each act; `RelayRows`, `RelayChanges`, `RelayAnswers` and
  `RelayQuotas` what the tables show, who changes them and what each request is told. `RelayEnrollment` is
  session-start enrolment against the live coordinator, and `EnrollmentRace` the same while others write.

**Launching a worker** (`Spawn*.dfy`). Any number of processes share one ledger; each has a launch table under a
mutex. A request reads the worker before taking the mutex, so what it read may be stale. Commits may fail, or succeed
and report failure; processes may crash between any two steps. `SpawnSafety` and `SpawnPromises` hold the
single-launch argument, `SpawnReplay` answers from the record, `SpawnAnswers` who is refused and how, and
`SpawnWaiters` why no waiter is left behind.

**The task index** (`Task*.dfy`, `TimeText.dfy`). Host snapshots are merged by last writer wins (`TaskIndex`,
`TaskConvergence`); multi-page collections are staged and then published in one transaction (`TaskLedger`,
`TaskStaging`, `TaskCollections`); `TaskHistory` carries convergence to every history of ingests and collections;
`TaskFields` determines every field of the index from what was published, `TaskUploads` from what was sent;
`TaskRetention` and `TaskReplays` say what is kept and for how long, `TaskReports` what a report counts; `TaskStore`
is the store as a program; `TaskPaging` lists the index by keyset cursors; `TimeText` relates the order of stored time
texts to the order of times.

**Smaller algorithms.** `Lineage` resolves each worker's operation with a memo table along parent links that may
dangle or form cycles. `Subtree` is the recipient fixpoint. `Decisions` is the supersession of decisions. `Messages`,
`MessagePruning`, `PruningOrder` and `MessageStore` are message creation with quota-driven pruning and replay records.
`DecisionContents` and `MessageContents` say what is stored of what was sent.

Where the source's comment or column order suggests "oldest", the code orders messages by their stored RFC 3339 text
(`internal/store/coordination.go:361-366`). That layout drops trailing zeros of the fraction, so text order and time
order differ; the model follows the code. `TimeText.NanoOrdersAsTimeIff` and `PruningOrder.PrunesInTimeOrderIff` say
exactly when the two agree, and `PruningOrder.YoungerPrunedFirst` is a request that deletes the younger message and
keeps the older.

`internal/relay/enrollment.go:80` says that automatic enrolment never reverses a central revocation. The code scans
the coordinator's tasks and then registers, and the registration enables whatever row it meets. The model follows the
code: `EnrollmentRace.ListedIsSeen` and `EnrollmentRace.RevocationSurvivesIff` say which revocations survive, and
`EnrollmentRace.RevocationIsLost` is a run that loses one.

## Model

| member | source | states |
|---|---|---|
| RelayTables.MessageIdInjective | coordinator/src/index.js:94-96 | the message ID determines the sending host and its request ID, so two senders never share an idempotency key |
| RelayService.Coordinator.Register | coordinator/src/index.js:145-179 | the whole new table state and response of a registration; a host over its quota changes nothing and is told 429 |
| RelayService.Coordinator.Send | coordinator/src/index.js:276-334 | replay first, then the conditional insert, then 409 or 429 by the reason: state and response of an undisturbed handler run, with the table invariant kept |
| RelayService.Coordinator.InsertMessage | coordinator/src/index.js:288-314 | a row appears iff its ID is new, the target is enrolled and all three quotas hold; a stored row is left alone |
| RelayService.Coordinator.Claim | coordinator/src/index.js:355-409 | state and response of an undisturbed claim, replayed, empty, refused or leasing |
| RelayService.Coordinator.InsertAttempt | coordinator/src/index.js:380-388 | the attempt, unless stored already, records the oldest claimable message by creation time and ID, or none when nothing is claimable |
| RelayService.Coordinator.LeaseMessage | coordinator/src/index.js:389-396 | exactly the attempt's message leaves the queue, and only while still queued |
| RelayService.Coordinator.Report | coordinator/src/index.js:410-510 | state and response of an undisturbed receipt, new, replayed or refused |
| RelayService.Coordinator.InsertReceipt | coordinator/src/index.js:461-495 | the receipt and the row's transition appear together or not at all |
| RelayService.Coordinator.Inspect | coordinator/src/index.js:511-523 | only sender and target see a message; reading changes nothing |
| RelayService.Coordinator.ListTasks | coordinator/src/index.js:180-194 | a malformed host or cursor is refused; otherwise the first 100 threads above the cursor in order, and a next cursor iff there are more |
| RelayService.Coordinator.CompactRelay | coordinator/src/index.js:118-136 | four of the five deletes, in order, amount to removing expired completed messages with their receipts and attempts, and the table invariant survives |
| RelayLease.ClaimReplayIsNoop | coordinator/src/index.js:380-396 | committing a claim whose attempt exists changes no table |
| RelayLease.ClaimBatchAdvances | coordinator/src/index.js:372-396 | a claim moves rows forward only and never changes a row's content, attempt once set, or the lease history |
| RelayReceipts.ReceiptInsertedIffMoved | coordinator/src/index.js:461-495 | a receipt row is inserted iff the message makes the transition in the same batch |
| RelayReceipts.ReceiptReplayIsNoop | coordinator/src/index.js:437-451 | committing a receipt whose key is stored changes no table |
| RelayHandlers.StepKeepsInv | coordinator/src/index.js:137-524 | every step of every handler keeps leases and receipt histories consistent and moves rows forward only |
| RelayHandlers.KnownPersists | coordinator/src/index.js:286-333 | no other handler removes or alters a stored idempotency key or its content |
| RelayHandlers.ReplaySafety | coordinator/src/index.js:285-509 | once a key is stored, a request carrying it changes no table under any interleaving, from whatever stage it had reached short of being refused, and is told the stored outcome or a conflict |
| RelayAnswers.RegisterAnswers | coordinator/src/index.js:145-179 | what an undisturbed registration is told, from the tables it meets: 400, 429 or success, each with its exact condition |
| RelayAnswers.SendAnswers | coordinator/src/index.js:276-334 | the same for a send: 400, the stored message or 409, 409 without an open task, 429 at a quota, else the new message as queued |
| RelayAnswers.ClaimAnswers | coordinator/src/index.js:355-409 | the same for a claim: 400, what the stored attempt holds, 429, else what it took |
| RelayAnswers.ReportAnswers | coordinator/src/index.js:410-510 | the same for a receipt: 400, the stored one or 409, the new one if it comes from the target and may follow, else 409 |
| RelayAnswers.ClaimTakesWork | coordinator/src/index.js:372-409 | a new claim that is not refused delivers a message iff one is queued for an open task of the host, and that message is then in dispatch to this host by this attempt |
| RelayAnswers.RegisteredIsStored | coordinator/src/index.js:145-179 | a registration that succeeds leaves the task exactly as registered |
| RelayAnswers.ShownIsStored | coordinator/src/index.js:276-334 | the message shown to a sender is the stored row, with the target, thread and prompt it sent |
| RelayAnswers.ReceiptedIsStored | coordinator/src/index.js:410-510 | the receipt returned is stored and has the content reported |
| RelayAnswers.InspectAnswers | coordinator/src/index.js:511-523 | the same for reading a message: 400, the row for its sender and its target, else 404 |
| RelayAnswers.ReadyAnswers | coordinator/src/index.js:335-341 | ready iff a message for an open task of the asking host is queued |
| RelayChanges.MessagesChangeBy | coordinator/src/index.js:276-495 | in every run a message appears by a valid send to an open task, exactly as sent, and changes by its target's claim, oldest first, or its target's valid reports, and by nothing else |
| RelayChanges.TasksChangeBy | coordinator/src/index.js:145-179 | in every run a task is never removed and changes by its host's registrations only, to exactly what they say |
| RelayChanges.AttemptsChangeBy | coordinator/src/index.js:118-136 | in every run an attempt appears by a claim under its ID, never changes, and goes with its message, or past the cutoff if it holds none |
| RelayChanges.ReceiptsChangeBy | coordinator/src/index.js:461-495 | in every run but for retention, receipts are appended one at a time, each by a report that moves its message, with its content |
| RelayRows.RowsShowTheirReceipts | coordinator/src/index.js:461-495 | in every reachable world a row's state, evidence and time are those of its last receipt, and its submission ID that of the last receipt that carried one; without receipts it shows neither |
| RelayRows.SubmissionIsKept | coordinator/src/index.js:474-477 | from one world to the next, a submission ID is never replaced by none while the row lives |
| RelayQuotas.QuotasHold | coordinator/src/index.js:99-117 | in every reachable world no host exceeds its quota of tasks, attempts, messages sent, active messages sent and active messages addressed to it |
| RelayQuotas.RefusedIffQuotaMet | coordinator/src/index.js:145-409 | a request is told 429 iff it is well formed, new and meets a quota, and then it changes nothing |
| RelayRunner.SaveFind | internal/relay/journal.go:124-135 | saving replaces the entry with this ID, or appends it, and touches no other |
| RelayRunner.NextIsFirstOpen | internal/relay/journal.go:110-123 | the next entry is the oldest row that is not done: every earlier row is done, and there is none iff all are done |
| RelayReceiver.Runner.Once | internal/relay/runner.go:34-122 | whatever network, disk and queue answer, the cycle is a run of the step machine to its end, submits at most once and leaves enrolment alone |
| RelayReceiver.CycleSubmitsOnce | internal/relay/runner.go:93-113 | in every such run there is at most one submission, made while the journal durably says `dispatching` |
| RelayReceiver.JournalStore.Save | internal/relay/journal.go:124-135 | a save that reports success, or fails after reaching the disk, leaves this entry findable; one that did not reach it changes nothing |
| RelayReceiver.JournalStore.Allowed | internal/relay/journal.go:106-109 | enrolment is read fail-closed |
| RelayReach.Reachable | internal/relay/runner.go:34-122 | the joint invariant of coordinator, handlers in flight, journals and submission log holds in every reachable world |
| RelayPromises.AtMostOnce | internal/relay/runner.go:32-113 | in every reachable world no two submissions share a journal entry or a message row lifetime, even with several receivers for one host |
| RelayPromises.TruthfulReceipts | internal/relay/runner.go:101-113 | a message in state `submitted` was submitted exactly once, by its own attempt with its thread and prompt, and that call returned its submission ID, unless another client of its destination host claimed the submission or its ID was reused |
| RelayEvidence.ReceiptsTellTheTruth | internal/relay/runner.go:68-113 | in every reachable world a journalled receipt says what happened: `submitted` with the ID its one submission returned; not enabled, and nothing was submitted; uncertain, and its one submission returned none; restarted, and a cycle did begin with the entry in `dispatching` |
| RelayEvidence.ReportsWhatItSaved | internal/relay/runner.go:114-120 | every receipt that a receiver sends is the one its journal holds for an entry being reported |
| RelayTrails.SubmissionIsPrepared | internal/relay/runner.go:75-101 | a cycle submits only after three answers in a row: its own message unchanged and in dispatch, the thread enabled locally, the entry stored as `dispatching` |
| RelayTrails.KeptClaimMatches | internal/relay/runner.go:51-67 | a claimed message is kept only if it is for this host and attempt and well formed |
| RelayTrails.DoneForAReason | internal/relay/runner.go:51-120 | an entry is called done only when nothing was claimed, when its message is past its dispatch, or when its receipt was stored |
| RelayTrails.BegunForWork | internal/relay/runner.go:35-46 | a new attempt begins only when the journal holds nothing open and the coordinator says there is work |
| RelayTrails.ReportsAreStored | internal/relay/runner.go:109-120 | a report is made of an entry stored just before with its receipt, or found so |
| RelayExceptions.ForgedReceipt | coordinator/src/index.js:461-495 | the first exception is real: from any initial world a client of the destination host can have a message recorded as `submitted` that no receiver submitted |
| RelayExceptions.LateReceipt | coordinator/src/index.js:461-495 | and so is the second, without any false claim: a receiver that reports late, after the message was completed, deleted and sent again, has the new message recorded as `submitted` although only the old one was |
| RelayPromises.LeasesAndReceiptsHold | coordinator/src/index.js:372-495 | in every reachable world a message is queued iff no attempt references it, otherwise exactly its own attempt does; and its receipts in insertion order are the path of transitions to its state, at most three |
| RelayPromises.NothingIsRequeued | coordinator/src/index.js:118-136 | no event, retention included, returns a row lifetime to the queue or hands it to another attempt |
| RelayPromises.OnlyFinishedIsDeleted | coordinator/src/index.js:118-136 | over all events a message disappears iff retention finds it completed and older than the cutoff, and its attempt and receipts go with it |
| RelayPromises.JournalLeadsSubmission | internal/relay/runner.go:97-101 | a journal never holds two entries that are not done, and a submission runs only for the entry it durably calls `dispatching`, not yet submitted |
| RelayPromises.CrashSurfacesAsUncertain | internal/relay/runner.go:68-74 | after a death with the entry `dispatching`, every later receipt for it says `uncertain` |
| RelayCrash.CrashIsNeverSubmitted | internal/relay/runner.go:68-113 | and its message never becomes `submitted` at the coordinator, with the exceptions of TruthfulReceipts |
| RelayPromises.DurableRevocation | internal/relay/enrollment.go:80-158 | once local enrolment is disabled no cycle submits to the thread and no automatic enrolment re-enables it until an operator registers it |
| RelayProgress.CycleFinishes | internal/relay/runner.go:35-120 | a fault-free cycle takes the pending entry to `done` iff the coordinator still allows what its phase needs, and submits exactly when the message is deliverable and its submission had not begun |
| RelayProgress.RunReport | coordinator/src/index.js:410-510 | an undisturbed report is accepted iff this exact receipt is stored, or its key is new and the transition is allowed |
| RelayRecovery.RecoversIff | internal/relay/runner.go:35-120 | the same for every host in every reachable world |
| RelayDelivery.RecoveryLeads | internal/relay/runner.go:35-120 | from every reachable world that meets the condition, events of the machine lead to a world with the entry `done`, submitting once if deliverable |
| RelayDelivery.DeliveryLeads | internal/relay/runner.go:35-113 | from every reachable world in which a host is idle and the oldest message queued for it is for an enrolled thread, events lead to one more submission |
| RelayDelivery.FirstDelivery | internal/relay/runner.go:34-122 | from any initial world a task can be enrolled, a message sent, claimed and submitted with its thread and prompt |
| RelayRecovery.IdsAlwaysFit | coordinator/src/index.js:285-314 | every stored message ID fits the routes that take one |
| RelayEnrollment.ScanCentral | internal/relay/enrollment.go:100-141 | following the pages finds the thread iff the coordinator lists it, ends, and never sees a repeated cursor |
| RelayEnrollment.AutoEnroll | internal/relay/enrollment.go:80-158 | the policy and event errors, without any effect; otherwise no revocation, local or central, is reversed: the thread is registered centrally only if absent and enabled locally only while centrally enabled |
| EnrollmentRace.ListedIsSeen | internal/relay/enrollment.go:100-141 | a scan read to its end shows every thread that is listed all along, though each page may be answered from other tables |
| EnrollmentRace.RevocationSurvivesIff | internal/relay/enrollment.go:100-158 | of the rows that are disabled when the enrolment ends its scan and acts, exactly those the scan saw stay disabled |
| EnrollmentRace.RevocationIsLost | internal/relay/enrollment.go:80-158 | a run: with two journals for one host, a `--disabled` registration between the scan and the registration is overwritten |
| Spawn.ReplayAppserverSpawn | internal/daemon/appserver_spawn.go:406-424 | the backward scan answers by the newest event with the request ID |
| Spawn.ReplayMeans | internal/daemon/appserver_spawn.go:406-424 | a replay needs the exact request on record and a complete identity; a fresh launch needs neither |
| Spawn.ReplayIff | internal/daemon/appserver_spawn.go:406-424 | the record answers iff the newest event with the request ID carries the same fingerprint and the identity is complete; a launch may go on iff no event carries the ID and there is no identity; everything else conflicts |
| SpawnReplay.RecordAnswers | internal/daemon/appserver_spawn.go:156-162 | in any world, an order that the record answers and no launch in the table covers is told the stored identity as a replay, and nothing else changes |
| SpawnReplay.RepeatIsReplayed | internal/daemon/appserver_spawn.go:125-208 | a run: a worker is registered, asked to start, starts one turn and ends it, and the order repeated in any process is answered with the same identity and starts nothing |
| SpawnAnswers.OnlyFitOrdersPass | internal/daemon/appserver_spawn.go:94-136 | in every run an order that is answered anything but a failure has a prompt within its limit and the worker's own request ID, and some record called the worker eligible; no turn starts for another worker |
| SpawnAnswers.UnfitIsRefused | internal/daemon/appserver_spawn.go:94-136 | and every other order is told a failure and changes nothing |
| SpawnAnswers.RefusalIsTold | internal/daemon/appserver_spawn.go:166-186 | when the guarded transaction refuses, fails or is lost, the launch leaves the table, its waiters and its requester are told: a conflict if the worker was asked before or has an identity, else a failure |
| SpawnWaiters.NobodyIsStranded | internal/daemon/appserver_spawn.go:140-261 | in every run, while a request waits for a launch, the launch has its outcome or a live thread of the same process still has to give it one |
| SpawnWaiters.SettlerProgresses | internal/daemon/appserver_spawn.go:182-261 | and each step of a thread that has left the guard or the turn settles the launch or brings it closer, whether its transaction commits, is lost or fails |
| SpawnSafety.GuardKeepsInv | internal/daemon/appserver_spawn.go:166-192 | the guarded transaction grants a worker's launch at most once, also when its commit is lost or refused |
| SpawnPromises.SingleLaunch | internal/daemon/appserver_spawn.go:125-208 | over all interleavings of requests, processes, stale reads, lost commits and crashes, the turn of a worker whose requested-event is kept starts at most once, whatever happens to other workers |
| SpawnPromises.SuccessIsDurable | internal/daemon/appserver_spawn.go:201-261 | in every run, every success reply carries an identity that a committed update of that worker wrote |
| SpawnPromises.SuccessesAgree | internal/daemon/appserver_spawn.go:201-261 | any two successes for a worker whose requested-event is kept answer the same request, prompt and model |
| SpawnPromises.UnguardedLaunches | internal/daemon/appserver_spawn.go:166-192 | without a requested-event and an identity on record, a valid request does start a turn, from any state |
| SpawnPromises.TrimmedGuardRelaunches | internal/daemon/appserver_spawn.go:171-175 | so dropping the event after a crash lets the turn start a second time |
| TaskIndex.OrderIsIrrelevant | internal/store/codex_tasks.go:198-224 | a snapshot's effect depends on its set of observations only |
| TaskConvergence.MergeAdvances | internal/store/codex_tasks.go:512-579 | merging an observation never moves a stamp back and leaves the record at least as new as the snapshot |
| TaskConvergence.StampsHold | internal/store/codex_tasks.go:198-263 | after any mix of snapshots a task's last listing is no newer than its last judgement, equal iff it is not missing, and a missing task is not tombstoned |
| TaskConvergence.ApplyAdvances | internal/store/codex_tasks.go:198-263 | no snapshot, window or complete, moves a state or classification stamp back or removes a record |
| TaskConvergence.WindowAgainIsNoop | internal/store/codex_tasks.go:595-598 | a window snapshot ingested before changes nothing when it comes again, whatever came in between, so forgetting its replay record is harmless |
| TaskConvergence.CompleteAgainIff | internal/store/codex_tasks.go:225-263 | a complete snapshot that comes again changes nothing iff no live task of its source, unlisted by it, carries an older stamp |
| TaskConvergence.CompleteAgainMarks | internal/store/codex_tasks.go:225-263 | an input where it does change something: an older window snapshot came in between |
| TaskConvergence.Converges | internal/store/codex_tasks.go:205-213 | each record of a host that sends window snapshots shows the newest one observing the task and the newest classification, even one from a stale snapshot, whatever other hosts send |
| TaskConvergence.AnyOrderAgrees | internal/store/codex_tasks.go:512-594 | two arrival orders of a host's window snapshots index the same tasks of it and agree on every order-independent field |
| TaskHistory.HistoryIsFold | internal/store/codex_tasks.go:149-276 | after any history of ingests and collections, with its replays, refusals and invalid snapshots, the index is the fold of the snapshots that were published |
| TaskHistory.HistoryStampsHold | internal/store/codex_tasks.go:198-263 | so the stamp invariant holds after every history |
| TaskHistory.HistoryConverges | internal/store/codex_tasks.go:149-276 | and each task of a host that published windows only shows the newest observation and classification |
| TaskHistory.HistoriesAgree | internal/store/codex_tasks.go:149-276 | and two histories in which a host published the same windows agree on its tasks |
| TaskFields.HistoryDetermines | internal/store/codex_tasks.go:149-276 | after any history each indexed task is determined, field by field, by the snapshots published, in their order |
| TaskFields.TextsAreLast | internal/store/codex_tasks.go:512-521 | title, description, directory, project and status are the last non-empty ones that a snapshot gave which landed on the task, or empty if none did |
| TaskFields.OptionsAreLast | internal/store/codex_tasks.go:534-548 | the coordinator flag and the wait cursor are the last ones given at all |
| TaskFields.StatesAreLast | internal/store/codex_tasks.go:528-554 | unread flag, update time, tombstone, source and listing stamp are those of the last snapshot that landed |
| TaskFields.FirstSeenIsFirst | internal/store/codex_tasks.go:513-516 | first-seen is the time of the first snapshot that landed |
| TaskFields.CreatedIsKnown | internal/store/codex_tasks.go:522-527 | created-at is the last time given for it, or else the time of the first snapshot that landed |
| TaskFields.MissingIsKnown | internal/store/codex_tasks.go:225-263 | a task is missing since the first complete snapshot that missed it after the last one that landed, and not missing if none did |
| TaskFields.StateIsLastJudge | internal/store/codex_tasks.go:225-263 | the state stamp is that of the last snapshot that landed on the task or missed it |
| TaskStore.Store.Ingest | internal/store/codex_tasks.go:149-276 | replay, mismatch, validation and the published index, replay table and report of one ingest |
| TaskStore.Store.MergeOne | internal/store/codex_tasks.go:201-223 | one turn of the loop: the merged record and its share of the report, stale classifications included |
| TaskStore.Store.MarkAbsentTasks | internal/store/codex_tasks.go:225-263 | exactly the live unlisted tasks of the source are marked, and the newly missing are counted |
| TaskStore.InsertedIsGrowth | internal/store/codex_tasks.go:219-223 | the index grows by exactly the reported number of insertions |
| TaskReports.ReportCounts | internal/store/codex_tasks.go:198-276 | the report counts what its names say: the listed tasks, those new to the index, those changed, those the index already knew something at least as new about, and those newly missing |
| TaskReplays.NewestAreOnRecord | internal/store/codex_tasks.go:264-276 | after any history the replay table holds exactly the newest 5000 publications, each with its fingerprint and report |
| TaskReplays.IngestReplays | internal/store/codex_tasks.go:165-197 | an ingest repeated before 5000 others were published returns its first report as a replay, other content under its ID is refused, and neither changes anything |
| TaskUploads.IngestAnswers | internal/store/codex_tasks.go:165-197 | the answers to an ingest, with their exact conditions on what was sent: invalid, replay, mismatch, or applied in the coverage it names |
| TaskUploads.IngestShows | internal/store/codex_tasks.go:512-579 | after an ingest each listed task that the snapshot beats shows what was given, field by field from the raw request; of any other only its classification can have changed, and then to a newer one |
| TaskUploads.MarksAgreeIff | internal/store/codex_tasks.go:503-510 | two snapshots have one fingerprint iff they agree on their header and their set of observations |
| TaskStaging.AddPageKeepsInv | internal/store/codex_task_collections.go:113-223 | whatever page is offered, staged pages stay contiguous, linked without a repeated cursor, disjoint in threads, valid and counted |
| TaskStore.Store.AddPage | internal/store/codex_task_collections.go:113-223 | all-or-nothing staging, including the collection a refused first page would have created |
| TaskStore.Store.HasDuplicate | internal/store/codex_task_collections.go:458-484 | the walk over staged pages finds a duplicate iff there is one |
| TaskCollections.AcceptedIffStored | internal/store/codex_task_collections.go:158-223 | a page is accepted iff it is well formed and then part of its collection with this content |
| TaskCollections.AcceptedPageReplays | internal/store/codex_task_collections.go:162-173 | a page once accepted is answered as a replay at any later time, finished or not, without any change, for as long as its collection is kept |
| TaskRetention.DeletedIff | internal/store/codex_task_collections.go:113-157 | in every history a collection disappears exactly when it is open and another's first page is accepted more than seven days after it began, or when a finish leaves 1000 finished after it |
| TaskRetention.UploadReplaysForAWeek | internal/store/codex_task_collections.go:162-173 | so a page accepted into an open collection is answered as a replay, without any change, whatever happens within seven days |
| TaskRetention.NoRoomIff | internal/store/codex_task_collections.go:532-535 | a new collection is refused for want of room iff 1000 open ones are no more than seven days old |
| TaskRetention.FinishReplays | internal/store/codex_task_collections.go:297-331 | finishing again with the same coverage returns the first result as a replay, with the other it is refused, and neither changes anything |
| TaskUploads.PageAnswers | internal/store/codex_task_collections.go:158-223 | what a page of a known collection is answered at any time: replay, mismatch, or the first of the sequence errors that applies, or accepted |
| TaskUploads.FirstPageAnswers | internal/store/codex_task_collections.go:120-157 | what a page of an unknown collection is answered: it must be the first, without a cursor, and there must be room |
| TaskUploads.IllFormedIsInvalid | internal/store/codex_task_collections.go:394-418 | a page is refused as invalid iff one of the limits on what was sent is broken |
| TaskUploads.UploadStores | internal/store/codex_task_collections.go:174-223 | an accepted page is stored with its cursors and its trimmed tasks in order, and a new collection with the times given |
| TaskCollections.StatusResumes | internal/store/codex_task_collections.go:227-282 | whenever a collection is interrupted, a page is in sequence iff it carries the page number and cursor the status names |
| TaskCollections.FinishSucceedsIff | internal/store/codex_task_collections.go:287-369 | an open collection finishes iff a complete one is terminal and its ingest ID was not used for other content; every re-check of the staged pages passes |
| TaskUploads.FinishAnswers | internal/store/codex_task_collections.go:287-369 | the answers to a finish in their order: bad arguments, unknown, finished before, not terminal, ingest ID in use, or success |
| TaskUploads.FinishShows | internal/store/codex_task_collections.go:332-369 | after a finish each staged task that the collection's time beats shows, field by field, what the host uploaded; any other stays as it was |
| TaskUploads.StatusCounts | internal/store/codex_task_collections.go:227-282 | the status counts the stored pages and, while the collection is open, their tasks |
| TaskUploads.IngestIdsDiffer | internal/store/codex_task_collections.go:522-525 | two collections whose host names hold no NUL are published under different request IDs |
| TaskCollections.FinishIsOneIngest | internal/store/codex_task_collections.go:332-369 | finishing leaves the index, the replay table and the report of one direct ingest of the union |
| TaskCollections.SplitIsIrrelevant | internal/store/codex_task_collections.go:486-520 | two ways of splitting the same observations into pages publish the same index |
| TaskCollections.FinishKeepsInv | internal/store/codex_task_collections.go:287-369 | finishing, compacting and forgetting old collections keep every remaining collection sound |
| TaskCollections.CollectionRefinesIngest | internal/store/codex_task_collections.go:109-369 | after any history of uploads, retries, refusals, finishes and ingests, finishing an open collection is one ingest of its union or a refusal without effect |
| TaskStore.Store.Finish | internal/store/codex_task_collections.go:287-369 | the program does this in one transaction |
| TaskStore.Store.ReadPages | internal/store/codex_task_collections.go:486-520 | walking the staged rows succeeds iff they are numbered without a gap, linked and counted, and then yields their union and last cursor |
| TaskPaging.ListCodexTasks | internal/store/codex_tasks.go:278-361 | one page: the first matches beyond the cursor, the total, and a cursor iff more remain |
| TaskPaging.WalkIsListing | internal/store/codex_tasks.go:327-361 | following cursors from anywhere yields the rest of the ordered listing, for any limit |
| TaskPaging.HistoryIsListable | internal/store/codex_tasks.go:149-276 | after any history of ingests and collections every position in the index can be carried by a cursor |
| TaskPaging.WalkListsEveryTaskOnce | internal/store/codex_tasks.go:278-361 | after any history, walking from the start lists every matching task exactly once, newest first, then host and thread |
| TaskPaging.WalkPasses | internal/store/codex_tasks.go:278-326 | after any history the walk lists a task iff it passes each field of the filter, stated one by one on what was asked |
| TaskPaging.PageSize | internal/store/codex_tasks.go:327-361 | a page holds as many places as asked for, 50 by default, or all that are left, and names a cursor iff more are left |
| TaskPaging.QueryRefusedIff | internal/store/codex_tasks.go:278-300 | a query is refused iff its tier is none of the four, its limit is out of range or its cursor incomplete |
| TaskPaging.PagesOrderAsText | internal/store/codex_tasks.go:599 | comparing the stored fixed-width text orders two positions exactly as comparing their times |
| TimeText.FixedOrdersAsTime | internal/store/codex_tasks.go:599 | the fixed-width layout orders as text exactly as the times do |
| TimeText.NanoOrdersAsTimeIff | internal/store/coordination.go:92-93 | the trimmed layout does so exactly unless both times share a second and the earlier fraction begins the later one, and then it reverses them |
| TimeText.NanoOrderFails | internal/store/coordination.go:92-93 | an input: 00:00:05 is written after 00:00:05.5 |
| Lineage.CorrectIsUnique | internal/operation/operation.go:180-238 | the plain ancestor walk has one answer per worker, so no iteration order can matter |
| Lineage.UndecidedIffCyclic | internal/operation/operation.go:210-212 | a worker has no deciding ancestor exactly when its parent chain runs into a cycle |
| Lineage.OutcomeMeans | internal/operation/operation.go:195-233 | the outcome, spelled out on the deciding ancestor: its readable issue, its unreadable one, itself as root, or its missing parent |
| Lineage.EarlierDefer | internal/operation/operation.go:195-233 | and every worker before it has no issue and a parent that exists |
| Lineage.Resolver.Resolve | internal/operation/operation.go:190-233 | the memoised recursion ends and returns the walk's answer, in any state of the memo it may find; an ID without a record is a missing parent and is not remembered |
| Lineage.Resolver.ResolveAll | internal/operation/operation.go:183-238 | every worker, and no other ID, gets the outcome of the first issue, root, missing parent or cycle on its chain |
| Subtree.Select | internal/coordination/service.go:165-178 | the fixpoint loop ends on every list and selects exactly the workers reachable downward |
| Subtree.Address | internal/coordination/service.go:144-189 | who receives a message, and when each error is returned |
| Decisions.EvidenceIsUnique | internal/store/decisions.go:215-230 | no evidence reference is kept twice |
| Decisions.EvidenceIsKept | internal/store/decisions.go:215-230 | every reference that is not blank is kept |
| Decisions.HistoryIsKept | internal/store/decisions.go:19-101 | whatever is recorded later, a stored decision never changes but for being marked, once, as superseded |
| Decisions.RecordedIsStored | internal/store/decisions.go:36-96 | a new decision is stored under its request and its fingerprint before inheritance; a failure or replay stores nothing |
| DecisionContents.StoredAsRequested | internal/store/decisions.go:51-99 | a new decision is stored current, with the request's trimmed texts and sorted gaps, the caller's fingerprint or else its own, and operation, repository and issue falling back to those of the decision it replaces, which alone is marked, with this ID and time |
| DecisionContents.EvidenceIsFirst | internal/store/decisions.go:210-230 | each kept evidence item is the first given one with its reference, trimmed |
| DecisionContents.AnswerIs | internal/store/decisions.go:36-99 | what a valid new request is told: unknown target, target replaced already, ID taken, or stored |
| DecisionContents.InvalidIsRefused | internal/store/decisions.go:235-268 | a request with a missing or oversized text, too many or ill-formed evidence items or gaps, and no other, is refused as invalid, without any effect |
| DecisionContents.FingerprintCovers | internal/store/decisions.go:27-33 | two requests without a caller's fingerprint count as the same iff their texts and evidence references agree |
| Decisions.ReplayIsStored | internal/store/decisions.go:36-46 | at any later time an identical request returns the stored decision, a differing one is refused, and neither changes anything |
| Decisions.ChainsAlwaysHold | internal/store/decisions.go:36-99 | after any history supersedes and superseded-by are mutual inverses, acyclic, and as many decisions are current as supersede nothing |
| Decisions.OneHeadPerChain | internal/store/decisions.go:51-96 | chains are disjoint and each has exactly one current decision |
| Decisions.DecisionStore.RecordDecision | internal/store/decisions.go:22-101 | the new table and result of one transaction, and the chain invariant kept |
| MessageStore.Store.CreateMessage | internal/store/coordination.go:27-128 | the new tables and result of one transaction: replay, mismatch, quota, conflict or creation |
| MessageStore.Store.Choose | internal/store/coordination.go:371-390 | the loop with running counts stops at the shortest prefix that makes room, or reports that none does |
| MessageStore.Store.Delete | internal/store/coordination.go:391-431 | each chosen message is snapshotted as it stands and deleted with its deliveries |
| MessagePruning.QuotaIff | internal/store/coordination.go:347-390 | creation fails on quota iff deleting every fully delivered message would still not make room |
| MessagePruning.CreateDeletesShortestPrefix | internal/store/coordination.go:358-400 | exactly the shortest prefix, oldest in stored text, of fully delivered messages is deleted, and no other message is touched |
| PruningOrder.PrunesInTimeOrderIff | internal/store/coordination.go:361-366 | that order is the order of the times iff no two fully delivered messages share a second with the earlier fraction beginning the later one |
| PruningOrder.YoungerPrunedFirst | internal/store/coordination.go:347-400 | at any two times that clash, with a delivered message each, a creation with 4999 recipients deletes the younger message and keeps the older |
| PruningOrder.HalfSecondPrunedFirst | internal/store/coordination.go:347-400 | in particular 00:00:05.5 goes before 00:00:05 |
| MessagePruning.CreateKeepsLimits | internal/store/coordination.go:83-126 | after a creation messages, deliveries and replay records are within their limits |
| MessageContents.CreatedAsDrafted | internal/store/coordination.go:83-126 | a creation stores the message under its ID with the draft's fields and one queued delivery per distinct non-blank recipient, in alphabetical order |
| MessageContents.DraftAnswers | internal/store/coordination.go:27-128 | what a request is told: which of request ID, ID, body and recipients is blank, in this order, or an answer, a mismatch, a quota or a conflict; and unless a message was created nothing changed |
| MessageContents.NoRoomIff | internal/store/coordination.go:347-390 | a new request meets the quota iff 1000 messages are not fully delivered, or their deliveries leave no room for its recipients among 5000 |
| MessageContents.OnlyDeliveredIsDeleted | internal/store/coordination.go:358-400 | after any history a message disappears only when a creation makes room, and only if each of its deliveries is delivered |
| MessageContents.MessagesAreAsDrafted | internal/store/coordination.go:27-128 | after any history every message is what the request that created it drafted, whatever its deliveries went through |
| MessageContents.UpdateIs | internal/store/coordination.go:305-345 | an update changes one delivery's state, error and time and adds one event to its history, of which the newest 100 stay; one that says nothing new changes nothing |
| MessageContents.DeliveriesShowLastEvent | internal/store/coordination.go:305-345 | after any history every delivery shows the state and error of its last event |
| MessageContents.ForgottenIff | internal/store/coordination.go:433-441 | a replay record is forgotten iff 1000 younger ones exist, and kept as it is otherwise |
| MessagePruning.PrunedReplayIsExact | internal/store/coordination.go:66-79 | over any history, repeating a pruned request whose record is kept returns the message and deliveries as they stood just before deletion |
| MessagePruning.LiveReplayIsCurrent | internal/store/coordination.go:45-62 | repeating a live request returns the message as it stands; other content is refused; neither changes anything |

## Left out

- RelayPromises.AtMostOnce: counts a message that retention deleted and the sender sent again under the same request ID as a new row lifetime, because the coordinator does.
- RelayHandlers.ReplaySafety: a request that already found its row missing and reads why (`Refusing`) is not covered; it is told a refusal.
- RelayPromises.TruthfulReceipts: excludes messages that another client of the destination host reported as `submitted`, and reused request IDs; the coordinator accepts both, see RelayExceptions.
- RelayCrash.CrashIsNeverSubmitted: has the same two exceptions.
- RelayPromises.DurableRevocation: the outcome of the central scan is arbitrary there; RelayEnrollment.AutoEnroll relates it to the coordinator's table, for a table that nobody else writes meanwhile, and EnrollmentRace says what remains true when others do.
- RelayEnrollment.AutoEnroll: the page rows carry no host because the coordinator only lists one, and the registration's response repeats what was sent.
- RelayService.Coordinator.CompactRelay: the claims table is not part of this model.
- SpawnPromises.SingleLaunch: assumes that other writers neither trim nor invent the requested-event of this worker; SpawnPromises.TrimmedGuardRelaunches shows the assumption is needed.
- SpawnPromises.SuccessesAgree: makes the same assumption.
- TaskConvergence.AnyOrderAgrees: says nothing of title, description, directory, project, status, coordinator flag, wait cursor, created-at and first-seen, which depend on the order of arrival; TaskFields.HistoryDetermines says how.
- TaskCollections.AcceptedPageReplays: holds while the collection is kept; TaskRetention.DeletedIff says exactly how long that is.
- TaskPaging.WalkListsEveryTaskOnce: holds for an index that does not change during the walk.
- MessagePruning.PrunedReplayIsExact: a replay record is kept only while it is among the newest 1000, as MessageContents.ForgottenIff says exactly.
- HTTP routing, JSON encoding, authentication and the hosts table's seen-at column; advisory claims, the inbox listing and delivery-attempt pages.
- SQL and SQLite themselves: a transaction is one atomic step, declared keys are unique, and deleting a message or collection deletes its children.
- Clocks: times are integers (or the stored text where the code orders by text) given by the caller.
- SHA-256 and UUID generation: fingerprints are the values they cover or an arbitrary function of them, and a new entry ID is any ID not used before.
- The journal's lock file is the rule that a process starts only when none holds the journal; loss of a journal is not modelled.
- The white space that trimming removes and the letters that case folding changes are modelled only as far as the code's comparisons can see them.
- Sorting of a normalised snapshot by thread: distinct threads make the order irrelevant, which TaskIndex.OrderIsIrrelevant proves.
- Final updates after a launched turn has ended (file changes, completion forwarding): they only append other events.
- Attention ordering, readiness, status rendering, path keys, file touches, trace stacks and CLI parsing: easy members.
