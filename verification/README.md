# Verification model of the agent orchestration server

A Dafny model of the durable core of the server: the fenced dispatch queue between the
server and its workers, the ETag store beneath it, the life of a job over restarts, the
parent/child A2A dispatch, and three small algorithms. Objects that the source updates in
place are classes whose methods are proved against specification functions; the laws are
lemmas about those functions and about whole runs. What an operation, a step or a decision does is
also stated on its own in the words of the data, every case and every field, without the functions
that compute it: in the `*Contracts` and `*Steps` modules, `JobAnswers` and `RuntimeHistory`.
`dafny verify dfyconfig.toml` covers everything.

## How it is put together

**Dispatch queue** (`Dispatch*.dfy`). `DispatchRecords` has the durable record, the
callbacks handed to compare-and-swap, and the swap, which compares owner and generation only
and applies its callback to the current record. `DispatchProtocol` is the step system: one
step per awaited call, any number of enqueuers, workers and cancellers, a clock that only
moves forward, messages that reappear, are duplicated or forged, and a crash between any two
steps. `DispatchInvariant` keeps what everything else needs; `DispatchFencing`,
`DispatchTerminal`, `DispatchLoss` and `DispatchCheckpoints` prove the safety laws over all
runs; `DispatchRaces` holds the runs that break the laws in their unconditional form.
`DispatchContracts` says what each call does to records and queues, and `DispatchLeasing` how long
a lease holds.
`DispatchPorts`, `DispatchQueue` and `DispatchWorker` are the in-memory ports, the queue and
the worker as classes, each call shown to be a run of the protocol. `DispatchMigration`,
`DispatchMigrationRuns` and `DispatchMigratingQueue` set the queue that migrates v1 work as it
turns up beside one that held v2 records all along, and say exactly which calls tell them apart;
`DispatchMigrationSteps` takes the migration apart into its awaited calls.
`DispatchMigrationContracts` and `DispatchMigrationIntent` say what is carried over, and that work
asked to cancel before its migration is never started.

**ETag store** (`RuntimeStore*.dfy`, `DispatchStatePort.dfy`, `JsonText.dfy`,
`CanonicalJson.dfy`, `RuntimeKeys.dfy`). Idempotent writes against a container that may
commit and still answer with a conflict, may show a winner late, and forgets nothing; the
bounded read-back; a JSON printer with a reader that inverts it; canonical JSON and the keys
made of it.

**Jobs** (`Admission*.dfy`, `AgentJobs.dfy`, `JobContracts.dfy`, `JobLoading.dfy`, `JobStore.dfy`,
`JobAnswers.dfy`, `JobLedger.dfy`, `JobMigration.dfy`, `JobServing.dfy`, `DurableObservation.dfy`,
`ObservationSteps.dfy`, `SharedObservation.dfy`, `Approval.dfy`, `JobPaging.dfy`, `ToolMerge.dfy`). Admission under three nested limits with a
journal, the snapshot store that publishes after its write and what it does to a snapshot on
loading it, the same store over the record-by-record ledger, its start-up migration and what a
write answered with an error leaves behind, observers that tell and acknowledge states and ask a
worker to cancel, over stores that compare and over one that does not, approvals with a deadline
and a timer chain, paging, and the merge of observed tools.

**A2A** (`A2A*.dfy`, `Orchestrator*.dfy`, `Collaboration*.dfy`). The store of dispatch intents
(`A2ADispatch`), one cancellation pass on its own and the classes that run it
(`A2ACancellation`), the same passes taking turns with bindings, settlements and the aborted run,
each deciding on the dispatch as it last got it back (`A2ACancellationRuns`, `A2AParentEnds`),
the resumption of a dispatch nobody cancelled (`A2AResuming`), the bounded-parallel orchestrator
with single-flight memory, the assignment of workers to roles, and what the order of a roster
shows (`CollaborationOrder`).

## Where the code does less than its documentation or tests suggest

Each of these is modelled as the code has it, with an input that shows it and the exact condition.

- A terminal record can be taken again: the guard of a swap is owner and generation, not
  status (`TerminalStepExact`, `StaleClaimRevives`, `CompletedTaskCanRunAgain`).
- Accepted work can lose its only message: a refused claim deletes the message it was
  delivered with, also when an older delivery of that message won (`SafeClaimExact`,
  `AcceptedTaskCanBeLost`).
- One idempotency key and content can commit twice after the ETag was refreshed around
  another commit (`RetryCommitsExactly`, `RefreshedRetryCommitsTwice`).
- Cancelling v1 work before its message turns up is refused, where v2 work would take the
  intent (`ToldApartExactly`, `CancelBeforeMigrationIsLost`).
- Reconstruction counts jobs without asking the limits (`ReconstructionExact`,
  `ReconstructionCanExceed`), and binds unresolved reservations again without a recovery
  (`UnresolvedNeedsRecovery`, `ReconstructionResolves`).
- `update()` takes any patch: it can give a job another job's id or key, after which no start
  loads the snapshot (`UpdateKeepsIdentity`, `UpdateUniqueExactly`, `UpdateCanRename`).
- A ledger persist that fails keeps the jobs it had written (`FailedPersistExact`, `RecoveryCanBeHalfWritten`).
- A write that the store carries out and answers with an error makes its mutation fail although
  the ledger has changed; that job then cannot be changed until a restart, and a creation tried
  again puts two jobs with one key into the ledger, which blocks the next start
  (`LandedWriteCanFail`, `MutationIsAtomic`, `BlockedUntilRestart`, `RetriedCreateBlocksStart`).
- A stored terminal status can be replaced by another one if the worker's report changes, unless
  the job had to be approved (`OutcomeReplacedByTheWorker`, `OutcomeReplaceableExactly`).
- A status is told again after its ack is stored by an observer that had read the job before: once
  if it was about to tell, and on every poll once the dispatch record is gone
  (`ToldAgainExactly`, `ToldAgainWhileRecorded`, `ToldWithoutEnd`, `ToldManyTimes`).
- Over one shared store a late ack drops an ack stored meanwhile (`AckLostExactly`, `LateAckDropsAnother`).
- A worker can be asked to cancel once more after a crash (`AsksAreConserved`, `AskedAgainAfterCrash`).
- A pass decides on the dispatch as it last got it back, so it can call the provider of a child
  that was finished and acknowledged meanwhile; a restart does so for children that ended
  without an acknowledgement (`CalledAgainExactly`, `StalePassCallsAgain`, `RestartDiffersFromLive`).
- Failed, unbound or mismatched children leave a cancelled parent pending only where no run is
  active: aborting a run settles them and ends the parent, although no provider confirmed,
  unless a late result breaks the run off (`ParentEndsExactly`, `ParentEndedExactly`,
  `AbortedRunEndsParent`, `LateResultLeavesPending`).
- A raw `cancelTask` ends a dispatched parent whose children still work (`CancelRuleExact`,
  `RawCancelLeavesChildrenRunning`).
- Keys of the ledger's test store depend on the order in which a scope lists its fields
  (`ScopeOrderMatters`), and the roster fingerprint on the order of ties and on the place of an
  entry that cannot be read (`FingerprintOrderIndependent`, `OrderShows`).
- A plan demands that the whole roster be pairwise independent, not only the workers it uses
  (`PlanExact`, `WholeRosterMatters`).

## Model

| member | source | states |
|---|---|---|
| DispatchInvariant.InvAlways | src/server/azure-agent-dispatch-queue.ts:238-654 | In every run of any number of enqueuers, workers and cancellers, with crashes, redeliveries and injected messages: every record is canonical and under its own reference, owner and generation appear together, terminal records have no expiry, the newest holder is the one its record describes, and no delivery is answered for by two processes |
| DispatchFencing.GenerationCountsClaims | src/server/azure-agent-dispatch-queue.ts:370-396 | Over any run, leaseGeneration rises by exactly one per accepted claim and by nothing else, and a record never disappears |
| DispatchFencing.LaterClaimIsNewer | src/server/azure-agent-dispatch-queue.ts:370-396 | Of any two acquisitions of one record in a run, the later hands out a strictly higher generation |
| DispatchFencing.StaleForever | scripts/azure-agent-dispatch-queue-test.ts:829-841 | Once a newer claim exists, every swap under the old (owner, generation) is refused in every later state, whatever callback it carries |
| DispatchFencing.StaleWorkerWritesNothing | src/server/azure-agent-dispatch-queue.ts:399-491 | A worker whose generation is no longer the newest leaves every record as it was at every later step, and its terminal call also leaves every message |
| DispatchFencing.OutcomeIsOfNewestGeneration | src/server/azure-agent-dispatch-queue.ts:436-491 | In every run, a completed, failed or cancelled record shows the payload of the last terminal call that took, and that call was made under the generation the record has now |
| DispatchFencing.InvocationForever | src/server/azure-agent-dispatch-queue.ts:411-430 | An invocation receipt on record never changes again in any run, whichever workers follow, and a completed record carries it |
| DispatchFencing.ForgedIsPoisoned | src/server/azure-agent-dispatch-queue.ts:326-368 | A message that is not the exact recorded work is copied to the poison queue and deleted, and no record changes |
| DispatchTerminal.TerminalStepExact | src/server/azure-agent-dispatch-queue.ts:436-491 | Terminal at most once is false of the code. Exactly: a finished record changes status in a step if and only if that step is a claim or quarantine decided on an earlier version with the same owner and generation, or a finish under a lease that was quarantined; any other step keeps status, receipt and error |
| DispatchTerminal.FinishedForGood | src/server/azure-agent-dispatch-queue.ts:326-396 | In every run without such an overtaking step a finished record keeps its outcome and is never executed again |
| DispatchTerminal.FinishLands | src/server/azure-agent-dispatch-queue.ts:436-530 | A holder's terminal call that the callback accepts ends the record, keeps its owner and generation, and goes on to delete the message |
| DispatchTerminal.StaleClaimRevives | src/server/azure-agent-dispatch-queue.ts:370-396 | The false family: a claim decided before the record finished leases the finished record again, receipt still on it, and the claimant starts the work if and only if no cancellation was requested |
| DispatchRaces.CompletedTaskCanRunAgain | src/server/azure-agent-dispatch-queue.ts:370-396 | A run from the empty system, for any work and receipt, in which a completed record is leased again and its execution starts anew |
| DispatchLoss.NoTaskLost | src/server/azure-agent-dispatch-queue.ts:238-396 | In every run in which each accepted claim is safe, an accepted unfinished record has a main-queue message with its exact payload, although workers crash anywhere, messages reappear, duplicates are deleted and forged ones poisoned |
| DispatchLoss.SafeClaimExact | src/server/azure-agent-dispatch-queue.ts:370-396 | A claim is safe if and only if afterwards no other process can still delete the message claimed |
| DispatchLoss.NewestDeliveryIsSafe | src/server/azure-agent-dispatch-queue.ts:370-396 | A claim by the newest delivery of its message is safe, which a caller can read off the message's dequeue count |
| DispatchLoss.ThreatDeletes | src/server/azure-agent-dispatch-queue.ts:382-396 | Conversely, a process that threatens a claimed message deletes it by its own next steps, with no further claim: the lease is left without a message |
| DispatchRaces.AcceptedTaskCanBeLost | src/server/azure-agent-dispatch-queue.ts:382-396 | The unconditional law is false: a run, for any work, after which the record is leased, accepted, and has no message left: the older delivery wins the swap, the newer one is refused and deletes the only message, and the winner crashes |
| DispatchCheckpoints.CheckpointsOnlyAdvance | src/worker/index.ts:97-116 | In every run of workers that number and gather as runOnce does, a checkpoint stays or gets a strictly higher number, across any number of take-overs and late heartbeats, and its tool entries keep place, first start and first terminal |
| DispatchPorts.MemoryState.CompareAndSwap | scripts/azure-agent-dispatch-queue-test.ts:829-841 | Compares only owner and generation, applies the callback to the record stored now, keeps the dispatch identity, and changes no other record |
| DispatchPorts.MemoryQueueClient.ReceiveMessage | scripts/azure-agent-dispatch-queue-test.ts:872-879 | Hands out the first visible message, hides it, counts it, and gives it the receipt of that count |
| DispatchPorts.MemoryQueueClient.DeleteMessage | scripts/azure-agent-dispatch-queue-test.ts:884-887 | Removes the message exactly if the pop receipt is its newest one |
| DispatchQueue.AzureAgentDispatchQueue.Enqueue | src/server/azure-agent-dispatch-queue.ts:238-271 | The new state is that of the protocol run of one enqueue, and case by case: new work is stored under its hash, unleased, and its message sent; the same work is sent again only if it neither was enqueued nor ended; other work under the reference is refused and nothing changes |
| DispatchQueue.AzureAgentDispatchQueue.Lease | src/server/azure-agent-dispatch-queue.ts:326-397 | The whole new state and the lease handed out, case by case: a granted claim counts the generation up by one and holds until now + visibility * 1000; while the record is held by that clock another message is deleted and every record left alone; ended work is handed out as it ended; a message delivered too often quarantines its record; anything unreadable, unknown or of other work moves to the poison queue |
| DispatchLeasing.LeasedOnlyWhenFree | src/server/azure-agent-dispatch-queue.ts:370-396 | In every run a claim is granted only if by the clock of that very step nobody holds the record, or to a redelivery of the message it is held for; from its own reading of the clock it then holds for the visibility asked for |
| DispatchLeasing.LeaseHoldsUntil | src/server/azure-agent-dispatch-queue.ts:370-396 | After a lease() granted at now, a lease() that receives another message of the work before now + visibility * 1000 is given nothing, deletes that message and leaves every record as it was; from then on it is granted, and a redelivery of the same message at any time |
| DispatchLeasing.HeartbeatExtends | src/server/azure-agent-dispatch-queue.ts:411-434 | A heartbeat that got through holds the record for its visibility from the clock at its swap, and keeps the invocation on record |
| DispatchQueue.AzureAgentDispatchQueue.Heartbeat | src/server/azure-agent-dispatch-queue.ts:399-434 | Refused as an argument error exactly for a bad lease, visibility or tool list; otherwise the message is renewed first, and the record takes checkpoint and expiry exactly if it is leased to this lease, unfinished and of the same invocation |
| DispatchQueue.AzureAgentDispatchQueue.Terminate | src/server/azure-agent-dispatch-queue.ts:436-530 | The swap comes before the delete: a stale lease fails with a lease conflict, never a receipt error, and changes nothing; otherwise the record ends with this receipt, error or reason, and the message goes exactly if the receipt is its newest |
| DispatchQueue.AzureAgentDispatchQueue.RequestCancellation | src/server/azure-agent-dispatch-queue.ts:493-513 | Ok exactly for a record in scope; the intent and its reason are put on record unless it has ended, and nothing else changes |
| DispatchQueue.CancelTriesAgain | src/server/azure-agent-dispatch-queue.ts:501-513 | A cancellation overtaken between its read and its swap reads again, up to four times, and goes by the owner and generation it read |
| DispatchQueue.DriveIsRun | src/server/azure-agent-dispatch-queue.ts:238-654 | Letting one process go on alone is a run of the protocol in which only it moves |
| DispatchQueue.LeaseCallIsRun | src/server/azure-agent-dispatch-queue.ts:326-397 | A lease() call in one piece is a run of the step protocol, so everything proved of runs holds of calls |
| DispatchQueue.EnqueueCallIs | src/server/azure-agent-dispatch-queue.ts:238-271 | enqueue() in one piece: refused without change, or stored, sent and marked |
| DispatchWorker.AzureCodexWorker.RunOnce | src/worker/index.ts:73-189 | Idle exactly without a lease, duplicate exactly for work that has ended, cancelled without a start exactly for work asked to cancel; else it starts, and the answer follows from the start, the signal and the end: succeeded with that receipt on record, faulted with the error of a failed start, a broken end or an empty receipt, cancelled exactly if the cancellation was seen first. With live work and no disturbance it gets there, and whatever operators and other workers do meanwhile it is a disciplined run of the protocol |
| DispatchWorker.AzureCodexWorker.RunLeased | src/worker/index.ts:97-189 | The same from the lease on: what is answered and what is then on record |
| DispatchWorker.AzureCodexWorker.Tend | src/worker/index.ts:125-146 | One report, timer tick, cancellation request or take-over: sequence and tools only advance, cancellation is signalled only if it is on record, loss only with an outdated receipt or a record out of scope |
| DispatchWorker.LeadsKeepsCheckpoints | src/worker/index.ts:97-116 | The runs of runOnce keep the discipline, so no checkpoint goes back over them |
| DispatchWorker.CheckpointsFromTheStart | src/worker/index.ts:97-116 | From the empty system on, between any two moments of such a history every checkpoint stays or advances |
| DispatchMigrationRuns.ToldApartExactly | src/server/azure-agent-dispatch-queue.ts:238-623 | A queue that migrates v1 work as it turns up answers a call as one that held v2 records all along, and stays in step with it, if and only if the call is none of these: v2 text for work still v1; a lease, a cancellation or an enqueue of work still v1 (unless the v1 record is like new); an enqueue that gives a waiting v1 message its record |
| DispatchMigrationRuns.CancelBeforeMigrationIsLost | src/server/azure-agent-dispatch-queue.ts:493-532 | The same cancellation intent is false before the migration: cancelling v1 work whose message has not turned up is refused without a trace, and the work is then leased without the intent |
| DispatchMigrationRuns.MigrationSimulates | src/server/azure-agent-dispatch-queue.ts:540-617 | Over any history without such a call: the same leases, generations and errors, and in the end the same records (what a v1 record counts as is MigrateCarries, field by field) |
| DispatchMigrationRuns.CallKeepsBacked | src/server/azure-agent-dispatch-queue.ts:238-271 | Every call keeps it so that queued v2 text has a stored record behind it, that no record disappears, and that a lease is handed out only for stored work |
| DispatchMigrationRuns.WorkersCannotTell | src/server/azure-agent-dispatch-queue.ts:326-491 | Therefore no lease, heartbeat or terminal call under a lease of this queue tells the two apart: only cancelling or enqueuing can |
| DispatchMigrationContracts.MigrateCarries | src/server/azure-agent-dispatch-queue.ts:863-889 | The record a migration creates says what the v1 record of that request said: status, enqueued, dequeue count, owner, generation (0 if absent), message, expiry, cancellation flag and reason, checkpoint, receipt, error and quarantine reason |
| DispatchMigrationIntent.MigratesDoes | src/server/azure-agent-dispatch-queue.ts:540-617 | What a migration leaves: the v1 record carried over where there was none, and its message read as the v2 text if that is then on file, poisoned if other work is, deferred if the ports do not let it through |
| DispatchMigrationIntent.CancelledV1NeverStarts | scripts/azure-agent-dispatch-queue-test.ts:547-559 | Migrated work whose v1 record was asked to cancel is never started: over every later run of interleaved migrations, leases and crashes no worker may do anything but cancel it |
| DispatchMigration.UnavailableWritesNothing | src/server/azure-agent-dispatch-queue.ts:619-623 | Without a resolver or a matching v1 record the work is deferred: nothing is written, deleted or given a mode |
| DispatchMigration.MigratedModeIsServerOwned | src/server/azure-agent-dispatch-queue.ts:551-617 | The mode of migrated work is the server's answer; at most one record is written, and only where there was none |
| DispatchMigration.MigrateIdempotent | src/server/azure-agent-dispatch-queue.ts:551-617 | Migrating again changes nothing and gives the same work |
| DispatchMigration.MigrateRace | src/server/azure-agent-dispatch-queue.ts:588-617 | Losing the create to another migrator of the same message ends as winning it |
| DispatchMigrationSteps.MigrationIsAtomic | src/server/azure-agent-dispatch-queue.ts:540-623 | However the awaited calls of any number of migrations interleave with each other and with every step of the protocol, with crashes, calls that throw and a create that fails after it was carried out: the run is one in which each migration happens in one piece at its own last step, or not at all |
| DispatchMigrationSteps.FirstCreatedStays | src/server/azure-agent-dispatch-queue.ts:588-617 | Over every such run the first to create the v2 record, migrator or enqueuer, fixes its task for good |
| DispatchMigrationSteps.GenerationStillCounts | src/server/azure-agent-dispatch-queue.ts:370-396 | Over every such run leaseGeneration still rises by exactly one per accepted claim, whatever migrates meanwhile |
| DispatchMigrationSteps.StaleStays | src/server/azure-agent-dispatch-queue.ts:399-491 | So an outdated lease is refused in every later state also while migrations go on |
| DispatchMigrationSteps.MigratorsAgree | src/server/azure-agent-dispatch-queue.ts:551-617 | As long as all creators agree on request and mode, migrators of one message, racing, crashing and starting over, are refused exactly for a v1 record of other work, and go on only with the task on file |
| DispatchMigrationSteps.EnqueueWinsRace | src/server/azure-agent-dispatch-queue.ts:588-617 | Without that they are not safe: an enqueue of other work under the reference between the read and the create of a migrator gets its message poisoned |
| DispatchMigratingQueue.MigratingDispatchQueue.Lease | src/server/azure-agent-dispatch-queue.ts:326-397 | lease() of a queue that owns a migration: new state and lease as in the simulation; a v1 message is refused for other work on file, deferred without a mode or a record, and otherwise leased as the v2 work whose record carries over every field of the v1 record |
| RuntimeStore.CommitsAtMostOnce | src/server/storage/cosmos-runtime-store.ts:72-133 | In every history of writers, retries, commits answered with a conflict or not at all, and delayed reads, no two revisions were committed against one ETag, so a write retried as it is commits at most once |
| RuntimeStore.LostAnswerIsFound | src/server/storage/cosmos-runtime-store.ts:95-133 | A commit whose answer was a conflict is found again: the next read-back that shows the newest version answers with its ETag, and so does a retry that reads it, without a second write |
| RuntimeStore.LandedWriteCanFail | src/server/storage/cosmos-runtime-store.ts:91-133 | But from every state in which a fresh write is accepted and answered with a conflict, three read-backs that do not show it yet make it fail although it is committed |
| RuntimeStore.RepeatNeedsOtherCommit | src/server/storage/cosmos-runtime-store.ts:82-101 | A (key, content) commits twice only around somebody else's commit, and only by a retry given a newer ETag |
| RuntimeStore.RefreshedRetryCommitsTwice | src/server/storage/cosmos-runtime-store.ts:82-101 | At most once per key and content is false without that: a run in which the same key and content, retried with a refreshed ETag, commits a second revision |
| RuntimeStore.RetryCommitsExactly | src/server/storage/cosmos-runtime-store.ts:82-115 | A retry can commit again if and only if it was given the newest ETag and the newest version is not its own |
| RuntimeStore.DoneIsDurable | src/server/storage/cosmos-runtime-store.ts:95-133 | Whatever write() answers stands, exactly, in the history under that ETag in every later state; so a mismatching winner is never taken for a replay |
| RuntimeStore.CommitReplacesWhatWasRead | src/server/storage/cosmos-runtime-store.ts:91-101 | A commit replaces the very version its caller computed from |
| RuntimeStore.OnlyCommitsWrite | src/server/storage/cosmos-runtime-store.ts:82-92 | The stored documents change if and only if a commit is accepted; a reader that sees its own write answers with that ETag |
| RuntimeHistory.CreationTimeStays | src/server/storage/cosmos-runtime-store.ts:91-101 | In every history all versions of a record say that it was created at the clock of its first commit |
| RuntimeHistory.VersionFrom | src/server/storage/cosmos-runtime-store.ts:164-187 | Every version was appended by one commit of one writer of its key, and is that input, under the next ETag, updated at the clock of that commit |
| RuntimeHistory.RefusedEnds | src/server/storage/cosmos-runtime-store.ts:95-162 | A refused port call ends as done if a read-back shows this very write, and after three that do not as the conflict it was; either way nothing is written |
| RuntimeStorePorts.CosmosRuntimeStore.Write | src/server/storage/cosmos-runtime-store.ts:72-133 | Undisturbed: a replay or conflict leaves the container alone; anything else is exactly one new revision of this document, updated at this clock and created at it too if it is the first, else at the creation time of the version it replaces |
| RuntimeStorePorts.CosmosRuntimeStore.ReadConflictReplay | src/server/storage/cosmos-runtime-store.ts:135-162 | Three read-backs: the first exact match is the answer, a miss means no read-back matched, the waits are 10 then 20 ms, and at most 30 ms pass |
| RuntimeStorePorts.WindowIsThirtyMs | src/server/storage/cosmos-runtime-store.ts:142-161 | A winner is found if and only if it is this write and visible within 30 ms |
| RuntimeStorePorts.MemoryCosmosPort.Replace | scripts/azure-runtime-store-test.ts:27-78 | Replaces exactly for the newest ETag, else changes nothing |
| DispatchStatePort.CommittedSwapIsAtomic | src/server/storage/agent-dispatch-state-port.ts:60-96 | compareAndSwap over the ETag store: when the write commits, the record replaced is the newest, had the expected owner and generation, and what is stored is the callback's result on it |
| JsonText.PrintRoundTrip | src/server/storage/runtime-store.ts:66-90 | Printed JSON text reads back as the value it was printed from, whatever text follows |
| JsonText.PrintInjective | src/server/storage/runtime-store.ts:66-90 | Different values print to different text |
| CanonicalJson.StableJsonExact | src/server/storage/runtime-store.ts:66-90 | Two values print to the same text if and only if they are equal up to object key order |
| CanonicalJson.StableJsonReadsBack | src/server/storage/runtime-store.ts:66-90 | The text reads back as the value up to key order, so every own key is in it, `__proto__` and `constructor` included |
| CanonicalJson.CanonIdempotent | src/server/storage/runtime-store.ts:66-90 | Canonicalizing a canonical value changes nothing |
| CanonicalJson.BeforeExact | src/server/storage/runtime-store.ts:66-90 | A rebuilt object lists its array indices first and by their number, then the other keys by code units |
| CanonicalJson.IndexExact | src/server/storage/runtime-store.ts:66-90 | A key is an array index exactly if it writes a number up to 4294967294 without leading zeros |
| RuntimeKeys.KeyInjective | scripts/agent-job-durable-ledger-test.ts:49-51 | scope JSON + NUL + id: different scopes or different ids, whatever the id holds, have different keys |
| RuntimeKeys.PrefixExact | scripts/agent-job-durable-ledger-test.ts:25-30 | A key starts with the prefix of a scope if and only if it was made for that scope |
| RuntimeKeys.PrintNoNul | scripts/agent-job-durable-ledger-test.ts:49-51 | JSON text never contains NUL, since strings escape control characters (section 7 of RFC 8259) |
| RuntimeKeys.ScopeOrderMatters | scripts/agent-job-durable-ledger-test.ts:49-51 | Two scope objects share keys if and only if they list the same fields in the same order: equality of scopes is not enough |
| RuntimeKeys.MemoryRuntimeStore.List | scripts/agent-job-durable-ledger-test.ts:25-30 | Exactly the records written under this scope, in insertion order |
| RuntimeKeys.MemoryRuntimeStore.Write | scripts/agent-job-durable-ledger-test.ts:31-48 | A create, or a replace of the newest ETag; anything else conflicts and changes nothing |
| Admission.ApplyInOrder | src/server/agent-admission-controller.ts:180-343 | Every operation keeps tokens unique and the index of reservations by job exact |
| Admission.LimitsKept | src/server/agent-admission-controller.ts:180-207 | No operation but reconstruction breaks the global, tenant or requester limit |
| Admission.OnlyReleaseFrees | src/server/agent-admission-controller.ts:265-343 | A held token is still held after an operation if and only if that operation is not its release: marking it terminal or unresolved, closing, binding and reconstructing free nothing |
| Admission.UnresolvedNeedsRecovery | src/server/agent-admission-controller.ts:209-284 | An unresolved reservation stays unresolved under an operation if and only if that is none of these: the release of its token, the first binding of it to a job, a reconstruction that lists its job as active |
| Admission.ReconstructionResolves | src/server/agent-admission-controller.ts:209-242 | So explicit recovery is not always needed: a reconstruction binds an unresolved reservation again |
| AdmissionRuns.UnresolvedSurvives | src/server/agent-admission-controller.ts:258-453 | No crash, restart or failed journal write resolves one: over any history it stays until one of those three operations is carried out and stored |
| Admission.ReleaseIdempotent | src/server/agent-admission-controller.ts:335-343 | Releasing twice is releasing once |
| Admission.JournalExact | src/server/agent-admission-controller.ts:351-453 | Reloading the journal gives back the same reservations with the gate reopened if and only if they fit its 2000 entries |
| AdmissionRuns.CrashesNeitherLeakNorFree | src/server/agent-admission-controller.ts:398-453 | With any failing journal writes and process deaths, the controller holds exactly what the operations whose write landed leave; a restart only reopens the gate |
| AdmissionRuns.RestartReopens | src/server/agent-admission-controller.ts:351-375 | A new process holds what the journal lists with its gate open, and a journal that was closed is then written anew so that it says so |
| AdmissionRuns.LimitsAlways | src/server/agent-admission-controller.ts:180-207 | With requester <= tenant <= global and no reconstruction, every reachable state respects all three counts |
| AdmissionRuns.LimitsFromTheStart | src/server/agent-admission-controller.ts:162-207 | So does every run from an empty journal, whose reservations are those of the operations that landed, one after the other |
| AdmissionRuns.ReconstructionExact | src/server/agent-admission-controller.ts:209-242 | Reconstruction keeps the limits if and only if the reservations held and those it adds for jobs without one respect them together |
| AdmissionRuns.ReconstructionCanExceed | src/server/agent-admission-controller.ts:209-242 | The limits are not unconditional: a lost journal and two active jobs give two reservations under limits of one |
| AdmissionController.AgentAdmissionController.TryAcquire | src/server/agent-admission-controller.ts:180-207 | The first limit reached answers: requester, then tenant, then all; else a new reservation under this token is the last; nothing at all if the journal cannot be written |
| AdmissionController.AgentAdmissionController.ReconstructFrom | src/server/agent-admission-controller.ts:209-242 | Each reservation with a job is bound again under the scope of the last active record of that job, becomes unresolved if it was bound and the job is not active any more, and else stays; every active job without one gets one; all taken back when the write fails |
| JobStore.StoreRefinesSequence | src/server/agent-job-store.ts:479-653 | In every run, with failed writes, killed processes and restarts, the file is what the mutations and the start-up upgrades whose write landed leave when applied one after the other, and readers see that snapshot or the one just before a write still to be answered |
| JobStore.FailureChangesNothing | src/server/agent-job-store.ts:623-653 | A failed write, a refused mutation and a failed migration change neither memory nor file |
| JobStore.IdentityForever | src/server/agent-job-store.ts:479-543 | Over any history of start-up upgrades and mutations none of whose updates gives another id, prompt, mode, key or creation time: jobs keep order and identity, ids and idempotency keys stay unique, and scope, provider, receipts, notification intent, approval deadline and decision never change once set |
| JobStore.StageContinues | src/server/agent-job-store.ts:267-324 | A mutation inserts only at the head and keeps the identity of every job if and only if it is not an update that gives one of those; then it also keeps ids and keys unique |
| JobAnswers.AgentJobStore.EnqueueMutation | src/server/agent-job-store.ts:267-324 | Stages on a private copy and publishes only after the write. A creation whose key stands in the scope is answered with the very job that holds it if and only if the request hashes agree, and otherwise as a conflict, changing nothing; any other is put at the head and answered. An update, decision or progress changes the first job of the id in the scope and no other |
| JobAnswers.AgentJobStore.InitializeFrom | src/server/agent-job-store.ts:208-265 | Publishes what was loaded, migrated if need be, only after its write |
| JobAnswers.StartGoesThrough | src/server/agent-job-store.ts:208-265 | A start publishes what it loaded, with its write where one is needed, and nothing if that fails or the file is refused; until then no mutation is taken |
| JobAnswers.RetriedCreateIsAnswered | src/server/agent-job-store.ts:309-319 | A published creation, retried as it was after any history of upgrades and tame mutations, is answered with the job it created as that job stands now, and changes nothing |
| JobAnswers.OtherContentConflicts | src/server/agent-job-store.ts:309-319 | The key with another request hash is a conflict and changes nothing |
| JobAnswers.MutationGoesThrough | src/server/agent-job-store.ts:623-653 | Undisturbed, a mutation is published with its write; if the write fails or the mutation is refused all is as before |
| JobAnswers.InTheOrderAsked | src/server/agent-job-store.ts:623-653 | While the process lives, mutations are taken up one at a time and in the order they were asked for |
| AgentJobs.UpdateKeepsIdentity | src/server/agent-job-store.ts:479-543 | An accepted update never touches what is fixed once set (scope, provider, receipts, intent, approval authority); it keeps id, prompt, mode, key and creation time if and only if the patch leaves them as they are, and with an approval attached cannot change id, prompt or mode |
| JobContracts.UpdateDoes | src/server/agent-job-store.ts:479-543 | After an accepted update every field is the one of the patch where it has one and as before where not, and the approval is settled with the end of the job; without an approval it is refused exactly if it rewrites what is fixed once set or completes without a result |
| JobContracts.ApprovedUpdate | src/server/agent-job-store.ts:479-543 | With an approval, an update that leaves the approved operation alone is accepted exactly if it rewrites nothing fixed, does not complete without a result, and its status fits: the one settled with, an end not before what was decided, or the wait for a decision; so waiting work can be cancelled at any time |
| JobStore.UpdateUniqueExactly | src/server/agent-job-store.ts:479-543 | After an update ids are distinct if and only if no other job has the id the patch gives, and keys if and only if no other job of the scope has its key: the store does not check |
| JobStore.UpdateCanRename | src/server/agent-job-store.ts:479-543 | Two jobs, one renamed after the other: the update is accepted and the next start refuses the snapshot |
| AgentJobs.DecideKeepsIdentity | src/server/core-approval-recovery.ts:87-139 | Deciding or settling an approval changes nothing that identifies a job and leaves the deadline where it was |
| JobContracts.DecideDoes | src/server/core-approval-recovery.ts:87-122 | What a decision does, whole: expired at the deadline whatever is asked, else denied or accepted; repeated as a replay, contradicted as a conflict, and refused for another identity or scope |
| JobContracts.UnreadableIsRefused | src/server/core-approval-recovery.ts:39-139 | Nothing is decided or updated under an approval that does not fit its job, its times or its settlement, and none is ever stored |
| JobLoading.LoadedStays | src/server/agent-job-store.ts:208-265 | Loading what was loaded changes nothing, and loading keeps every identity; a snapshot with nothing to bring up to date loads as it is |
| JobLoading.LoadsAllSo | src/server/agent-job-store.ts:208-265 | A snapshot is refused exactly if one of its records is, an id comes twice, or a key comes twice in one scope; else every record is loaded in its place |
| JobLoading.LoadsSo | src/server/agent-job-store.ts:208-265 | A record gets the legacy provider if it has none; one completed without a result fails, or is refused if it has a tenant; one whose approval cannot be read is refused |
| JobLedger.PersistStores | src/server/storage/agent-job-durable-ledger.ts:38-76 | A persist that succeeds leaves the whole snapshot in the ledger |
| JobLedger.OneJobDoes | src/server/storage/agent-job-durable-ledger.ts:45-76 | One changed job: written over exactly the version memory knows; a new one where there is none, or where only the provider is missing; counted as stored where it stands already; any other record stops the persist |
| JobLedger.NoLostUpdate | src/server/storage/agent-job-durable-ledger.ts:51-66 | A record another process changed meanwhile is never overwritten, and a persist that wanted to stops |
| JobLedger.FailedPersistExact | src/server/storage/agent-job-durable-ledger.ts:38-76 | A persist that fails leaves the ledger as it was if and only if it deletes a job, or the store takes no write and does not carry out the one it fails, or the first changed job that is not stored already is one the loop stops at |
| JobLedger.RecoveryCanBeHalfWritten | src/server/agent-job-store.ts:605-621 | Two interrupted jobs and a store that takes one write: the recovery fails and the first job stays failed in the ledger |
| JobLedger.MutationIsAtomic | src/server/agent-job-store.ts:623-653 | Every mutation but restart recovery changes at most one job. It happens or changes nothing, except exactly if its one write is carried out and answered with an error: then it fails, and the ledger has that one job changed |
| JobLedger.HalfWrittenIsRefused | src/server/storage/agent-job-durable-ledger.ts:51-58 | A job whose stored version memory does not know is refused on its next persist |
| JobServing.UnansweredSetsApart | src/server/agent-job-store.ts:623-653 | Such a write to a job in memory leaves memory as it was and the ledger one version ahead of it |
| JobServing.BlockedUntilRestart | src/server/storage/agent-job-durable-ledger.ts:51-58 | From then on, over any sequence of mutations and however the store takes their writes, memory and ledger keep their two versions of the job, and every mutation that would change it fails |
| JobServing.RetriedCreateBlocksStart | src/server/agent-job-store.ts:267-324 | A creation answered that way and tried again under its idempotency key puts two jobs with one key into the ledger, which no later start accepts |
| JobLedger.RuntimeStoreAgentJobLedger.PersistJobs | src/server/storage/agent-job-durable-ledger.ts:38-76 | The loop over changed jobs: ledger and outcome as specified, job by job |
| JobMigration.MigratesOnce | src/server/agent-job-store.ts:214-251 | A ledger brought up to date by a start is not written again by any later start |
| JobMigration.ConcurrentChangeBlocks | src/server/agent-job-store.ts:216-250 | A record changed between load and write-back keeps the other writer's value, and stops the start if the start had to change it |
| JobMigration.StartResumes | src/server/agent-job-store.ts:208-265 | However an earlier start ended, an undisturbed one publishes everything it loaded; it fails for good only on a record no load accepts |
| DurableObservation.NoticesAreConserved | src/server/agent-service.ts:768-861 | In every run of any number of observers, with crashes, lost acks, stale snapshots and dispatch records that vanish, a status is told as often as it is acknowledged (at most once) plus once per send whose ack was lost or is to come |
| DurableObservation.NoticeIsWarranted | src/server/agent-service.ts:811-837 | A notice goes out only with the intent on, for a status that was stored and not acknowledged there; a terminal one only for an outcome the worker had, a cancelled one only with the request on record |
| DurableObservation.SilentWithoutIntent | src/server/agent-service.ts:811-818 | With the intent off or absent nothing is ever told |
| DurableObservation.StoredIsKept | src/server/agent-service.ts:768-837 | Acks and a recorded cancellation never disappear and a terminal job never opens again, whatever a stale observer tries to store |
| DurableObservation.OutcomeReplacedByTheWorker | src/server/agent-service.ts:768-809 | That a stored terminal status never changes is false; over any run it changes only to another terminal status, only if the worker reported both, and only in a job that needed no approval |
| DurableObservation.OutcomeReplaceableExactly | src/server/core-approval-recovery.ts:60-79 | Exactly: from any state with a stored terminal status some continuation replaces it if and only if no approval is settled, and one is settled if and only if the job had to be approved |
| DurableObservation.OutcomeCanChange | src/server/agent-service.ts:768-809 | With no approval settled, whatever outcome the worker reports next, one new observer stores it in place of the old one |
| DurableObservation.UpdateRefines | src/server/agent-job-store.ts:479-543 | The update the job store accepts is the one of this model: it settles an approval with the first terminal status, and with a settled approval accepts no other status |
| DurableObservation.AckSilencesLater | src/server/agent-service.ts:811-861 | Once the ack of a status is stored, in every later run a process that begins its work after that never comes to tell the status |
| DurableObservation.ToldAgainExactly | src/server/agent-service.ts:768-861 | Never again once its ack is stored is false of processes already at work. Over every later run: one is about to tell the status if and only if the status is due by the record it holds, it has not died, and it either was about to tell when the ack was stored and has not moved since, or its last step went on from finding no dispatch record |
| DurableObservation.ToldAgainWhileRecorded | src/server/agent-service.ts:768-861 | While the dispatch record stays, that leaves only a process that was about to tell when the ack was stored, and that one once |
| DurableObservation.ToldWithoutEnd | src/server/agent-service.ts:774-775 | Once the dispatch record is gone there is no end to it: an observer that missed the ack tells the status any number of times more, without a crash, each of its own acks refused |
| DurableObservation.ToldManyTimes | scripts/agent-durable-notification-test.ts:186-197 | Both from the start and for any terms with the intent on: two observers and no crash, the status acknowledged and then told again by the second, and any number of times more once the record is gone |
| SharedObservation.InTurnKeeps | scripts/agent-durable-notification-test.ts:198-222 | Services over one shared store, where writes are merged and nothing is compared, lose no ack and reopen no job as long as no service looks while another is at it |
| SharedObservation.AckLostExactly | src/server/agent-service.ts:834-836 | Out of turn a stored ack is dropped exactly by the ack of another status whose list was read before it was stored |
| SharedObservation.LateAckDropsAnother | src/server/agent-service.ts:834-836 | A run in which the late ack of the start drops the stored ack of the outcome, and the outcome is told a second time |
| DurableObservation.AsksAreConserved | src/server/agent-service.ts:601-661 | The worker is asked exactly as often as the request is recorded (at most once) plus once per ask whose record was lost or is to come |
| DurableObservation.AskedAgainAfterCrash | src/server/agent-service.ts:601-661 | Asked at most once is false: a run from the start in which a process dies between asking and recording and its successor asks again |
| DurableObservation.OutcomeWasTheWorkers | src/server/agent-service.ts:768-809 | Asking ends nothing: a job is terminal, and its capacity freed, only with an outcome the worker had |
| DurableObservation.FinalOutcomeIsKept | src/server/agent-service.ts:768-809 | In runs whose worker keeps its outcome, a stored terminal status is that outcome and stays, and capacity is freed only once the worker is done |
| DurableObservation.CancelledNoticeMeansCancelled | src/server/agent-service.ts:811-837 | A cancelled notice was sent only if the request is on record and the worker was cancelled; if the worker keeps its outcome, only if that is cancelled |
| DurableObservation.CancelledToldExactly | src/server/agent-service.ts:752-861 | Conversely, in undisturbed runs whose worker keeps its outcome, a resting observer that has caught up has sent one cancelled notice if the outcome is cancelled with the request on record, and none otherwise |
| DurableObservation.ToldExactlyOnce | src/server/agent-service.ts:752-861 | In every run of one observer without crashes or lost acks each status is told at most once, told exactly if it is acknowledged, and a resting observer has nothing left to tell |
| ObservationSteps.RecordMovesExactly | src/server/agent-service.ts:768-861 | The stored record changes exactly by an observed status that is welcome, an ack and a recorded cancellation, each of a process that has the newest record, and by no more than that |
| ObservationSteps.CountsMoveExactly | src/server/agent-service.ts:768-861 | Notices, asks and the capacity of the job move exactly with the accepted sends, the asks and the accepted release |
| ObservationSteps.ComesToRest | src/server/agent-service.ts:768-861 | Whatever it is answered, an observer left to itself rests after at most four steps |
| Approval.DispatchExact | src/server/agent-service.ts:485-509 | Work is dispatched if and only if a pending approval is accepted with its identity, not before it was created and before its deadline |
| Approval.DecidedInTime | src/server/core-approval-recovery.ts:39-139 | Over any life: accepted or denied only before the deadline the approval began with, expired only at or after it; denied and expired work ends cancelled and settled so, accepted work waits no more |
| Approval.AuthorityIsFixed | src/server/core-approval-recovery.ts:39-139 | Over any life of decisions, patches, reloads and restart recoveries, deadline and identity never move and decision and settlement are made at most once |
| Approval.DecidedIsFinal | src/server/core-approval-recovery.ts:87-122 | A decided approval dispatches nothing any more |
| Approval.DispatchedOnceIfAccepted | src/server/agent-service.ts:485-509 | Work waiting for approval is dispatched at most once over its life, and only if its approval ends accepted |
| Approval.Fire | src/server/agent-service.ts:526-560 | One timer: it waits for the earliest deadline, at least the minimum and at most 60000 ms; a stored pass leaves exactly what was not due when it fired, and each firing brings the end of the chain nearer |
| Approval.RunExpiryChain | src/server/agent-service.ts:526-560 | The re-armed chain ends, with every delay in 1..60000 and everything expired not before its deadline, even when some passes are not stored; and with timers late by at most a bound not later than that bound after it, plus the retry delay and the bound for each pass that was not stored |
| A2ADispatch.ApplyKeeps | src/server/a2a-store.ts:434-654 | Every store operation keeps a dispatch sound, and an ended parent, dispatch or child never changes again; intent, acknowledgement and bound job never disappear |
| A2AContracts.AppliesSo | src/server/a2a-store.ts:434-654 | Every store operation, refusals included: what becomes of the one child named and of the status, and that nothing else of the parent changes |
| A2AContracts.FinalizeRecordsFirst | src/server/a2a-store.ts:618-654 | Finalizing with outcomes is recording them one by one and then finalizing; the first that is refused refuses it |
| A2ACancellationRuns.CallsFollowIntent | src/server/a2a-production-runtime.ts:422-541 | In every run of interleaved passes, bindings, settlements, aborted runs, failed writes and crashes: when a provider is called, the intent is on file, the stored child is bound to that very job, and the agent is the one of its stored plan, with the same provider, identity and boundary |
| A2ACancellationRuns.CalledAgainExactly | src/server/a2a-production-runtime.ts:446-508 | Never calling for an acknowledged or finished child is false: a caller does so if and only if the acknowledgement, or for a live pass the outcome, landed after it last got the dispatch back; a restart or a binding also if the child had ended before, unacknowledged |
| A2ACancellationRuns.StalePassCallsAgain | src/server/a2a-production-runtime.ts:446-508 | A live pass that waits for one child's provider while the other settles and is acknowledged, and then calls the other's provider |
| A2AParentEnds.ParentEndsExactly | src/server/a2a-production-runtime.ts:510-745 | From a cancellation on, in any interleaving in which no outcome of a child is refused, once all is quiet the parent is canceled if and only if its run was active when it was cancelled, or every child had ended or could be acknowledged; so a failed, unbound or mismatched child leaves it pending only where no run is active |
| A2AParentEnds.ParentEndedExactly | src/server/a2a-production-runtime.ts:510-745 | Refused outcomes included, after every event from a cancellation on: the parent is canceled if and only if by then a pass went through having seen every child ended, or the run came to its close |
| A2AParentEnds.AbortLands | src/server/a2a-orchestrator.ts:584-599 | The outcome an abort settles for a child still at work is never refused |
| A2AParentEnds.FirstIsReady | src/server/a2a-production-runtime.ts:640-684 | A newly started dispatch with its run is in the state ParentEndsExactly starts from |
| A2AParentEnds.AbortedRunEndsParent | src/server/a2a-orchestrator.ts:584-599 | A run in which no provider can cancel the only child and the parent is canceled all the same: the abort settles the child, the run ends the parent |
| A2AParentEnds.LateResultLeavesPending | src/server/a2a-production-runtime.ts:674-684 | A refused outcome does leave a parent with an active run pending: a child acknowledged as canceled whose own result arrives after that breaks the run off, although every child has ended |
| A2AParentEnds.StaysReady | src/server/a2a-production-runtime.ts:640-684 | Every run stays in the state ParentEndsExactly starts from, whatever its children start, bind and settle before the cancellation |
| A2AParentEnds.UndisturbedPass | src/server/a2a-production-runtime.ts:446-508 | A pass that nothing disturbs, live or on restart, makes the calls of the atomic pass in its order and leaves the parent as that does |
| A2ACancellation.PassExact | src/server/a2a-production-runtime.ts:446-508 | The atomic pass treats each child on its own: it acknowledges exactly the children it decides to and calls exactly the providers it decides to, each once and in order, whatever fails |
| A2APassContracts.ChildPassed | src/server/a2a-production-runtime.ts:446-508 | A pass acknowledges a child exactly if it was canceled before, had ended before a live pass, or the trusted provider of its bound job confirms; a child that had not ended is then canceled, any other keeps its end |
| A2APassContracts.CancelledSo | src/server/a2a-production-runtime.ts:510-541 | After an undisturbed pass the parent is canceled exactly if every child has ended, and nothing but its children and its end changes |
| A2ACancellation.RestartDiffersFromLive | src/server/a2a-execution.ts:464-514 | One finished child that a live pass acknowledges and a restart cancels at its provider |
| A2ACancellation.LifeKeeps | src/server/a2a-store.ts:434-654 | Over any life, with failed writes and restarts, everything settled stays settled |
| A2ACancellation.CancelRuleExact | src/server/a2a-store.ts:370-394 | An operation breaks the rule that a canceled parent has no running child if and only if it is a raw cancelTask on a dispatched parent that takes |
| A2ACancellation.CanceledOnlyWhenSettled | src/server/a2a-store.ts:569-654 | In every life without such a raw cancel, a parent with children is canceled only when every child is terminal |
| A2ACancellation.RawCancelLeavesChildrenRunning | src/server/a2a-store.ts:392-394 | One raw cancel: a canceled parent with a child still working |
| A2ACancellation.A2AStore.Mutate | src/server/a2a-store.ts:712-727 | Applied, validated and written, as the operation says case by case, or the state is as before |
| A2ACancellation.A2AStore.CancelDispatch | src/server/a2a-production-runtime.ts:510-541 | Undisturbed and without an active run: no call and no change if the children are cancelled already or the intent cannot be stored; otherwise exactly the calls of one pass, and the parent as it leaves it |
| A2ACancellation.Reconciler.ReconcileRecoverableDispatches | src/server/a2a-execution.ts:331-456 | Every recoverable dispatch gets its turn whatever happens to the others: a canceling one its pass, another one its resumption; reported are exactly those that did not end |
| A2AResuming.ResumedSo | src/server/a2a-execution.ts:376-572 | A resumed dispatch ends if and only if no recovered job breaks it off, every child ends, and either one did not complete (then it fails) or every result was recovered (then it completes), the parent along with it; else it waits for the next start |
| Orchestrator.InvAlways | src/server/a2a-orchestrator.ts:220-355 | In every reachable state of concurrent runs, aborts and late results: workers, executions and memory agree |
| Orchestrator.ParallelismRespected | src/server/a2a-orchestrator.ts:285-340 | A run never has more children at work than its parallelism, even counting those an abort no longer waits for |
| Orchestrator.SingleFlight | src/server/a2a-orchestrator.ts:491-575 | At most one open execution per (scope, parent, key) |
| Orchestrator.OverlapNeedsAbort | src/server/a2a-orchestrator.ts:533-599 | Two pieces of work for one key overlap only if one belongs to an aborted run |
| Orchestrator.NothingStartsAfterAbort | src/server/a2a-orchestrator.ts:291-316 | Once a run is aborted, by its parent or its deadline, no child of it starts in any later state |
| Orchestrator.RunsOnceWhileKept | src/server/a2a-orchestrator.ts:491-522 | Between two starts of one key, in every run, its record was settled and then pruned with as many settled records kept that were used after it as memory may hold: a key runs once while active or retained |
| Orchestrator.RetentionIsBounded | src/server/a2a-orchestrator.ts:601-620 | In every reachable state memory holds at most the bound of settled records; only a settlement drops any, and then it keeps every active record and, of the settled, those used last |
| OrchestratorSteps.PrunedRetains | src/server/a2a-orchestrator.ts:601-621 | A settlement drops only settled records, as many as are over the bound, and every one it drops was used before every settled one it keeps |
| OrchestratorSteps.TakenInOrder | src/server/a2a-orchestrator.ts:272-292 | A run takes its children one by one from the front: after n picks exactly the first n |
| OrchestratorSteps.EveryRunCompletes | src/server/a2a-orchestrator.ts:272-318 | In whatever reachable state the others leave it, a run that is not aborted can be brought to its end: nobody waits in a circle and no child stays untaken |
| OrchestratorResults.PrepareChildren | src/server/a2a-orchestrator.ts:400-489 | Refused exactly for a key repeated with another content; otherwise every request in order, a duplicate exactly if its key came before |
| OrchestratorResults.Summarize | src/server/a2a-orchestrator.ts:318-355 | Results in request order; total = unique + duplicate = completed + failed + canceled |
| Collaboration.PlanExact | src/server/a2a-collaboration-plan.ts:177-265 | A plan is produced if and only if the roles are distinct Core roles, the roster is sound and pairwise independent, and some assignment gives every role a capable worker of its own |
| CollaborationContracts.PlansFromExactly | src/server/a2a-collaboration-plan.ts:177-265 | In the words of the roster as given, a plan is made exactly for 1 to 16 readable entries with opaque ids, exactly the capabilities of their roles and pairwise different agents, identities and boundaries, for distinct known roles, and somebody else with the role for each of them |
| CollaborationContracts.VisitIsFirst | src/server/a2a-collaboration-plan.ts:479-515 | Of all assignments the search takes the first: at the first role where another one differs, that one takes a later candidate |
| CollaborationContracts.ConstrainedFirst | src/server/a2a-collaboration-plan.ts:479-500 | Roles with fewer candidates are filled first, and of those with equally many the one that stands first in the catalog |
| Collaboration.PlanSound | src/server/a2a-collaboration-plan.ts:177-265 | A plan has one request per role in order, by capable workers with pairwise distinct agents, identities and boundaries |
| Collaboration.VisitComplete | src/server/a2a-collaboration-plan.ts:479-515 | The augmenting search finds an assignment whenever one exists |
| Collaboration.WholeRosterMatters | src/server/a2a-collaboration-plan.ts:177-265 | A roster blocked although a fit worker for every role exists: one further worker that shares its boundary |
| CollaborationOrder.PlanOrderIndependent | src/server/a2a-collaboration-plan.ts:177-265 | Whatever entries a roster holds, their order and the order within them never show in the plan |
| CollaborationOrder.RolesOrderIndependent | src/server/a2a-collaboration-plan.ts:359-377 | Roles requested in any order are the same plan roles |
| CollaborationOrder.FingerprintOrderIndependent | src/server/a2a-collaboration-plan.ts:378-550 | The fingerprint is the same for every order of the roster if and only if every entry can be read and no two workers have the same four ids but different roles or capabilities (or no entry can be read, or there are none or too many): reading stops at the first entry it cannot read |
| CollaborationContracts.CanonicalExactly | src/server/a2a-collaboration-plan.ts:530-540 | Two workers are printed the same exactly if they have the same ids and the same roles and capabilities, in whatever order |
| CollaborationOrder.OrderShows | src/server/a2a-collaboration-plan.ts:378-550 | For every other roster, two orders of it with different fingerprints |
| JobPaging.PagingIsStable | src/server/agent-job-store.ts:377-412 | Following cursors from the first page, with any new jobs at the head between pages, gives exactly the jobs that matched at first, in order: none twice, none skipped, none of the new ones |
| JobPaging.FollowExact | src/server/agent-job-store.ts:377-412 | The same from any cursor, and the pages end as soon as limit times pages covers the matches |
| JobPaging.PageIsScoped | src/server/agent-job-store.ts:377-412 | A page shows only the principal's own matching jobs, even by requested id, and a cursor is refused if and only if it names none of the principal's jobs |
| JobPaging.PageShows | src/server/agent-job-store.ts:377-412 | A page is the first wanted jobs behind the cursor, in their order, as many as the limit allows; it names a next cursor, the id of its last job, exactly if more are wanted |
| ToolMerge.MergeObservedToolUsage | src/server/agent-tool-observation.ts:89-115 | The loop computes the merge of the specification, within 32 entries |
| ToolMerge.MergesSo | src/server/agent-tool-observation.ts:93-114 | Each observation is dropped if unsafe or a command outside the command line, ends an entry about the same tool that is still running and keeps its name and start, is appended if no entry is about it and there is room for 32, and else changes nothing |
| ToolMerge.MergeAssociative | src/server/agent-tool-observation.ts:89-115 | Merging in two steps is merging at once |
| ToolMerge.MergeIdempotent | src/server/agent-tool-observation.ts:89-115 | Merging the same observations, or the merged list itself, again changes nothing |
| ToolMerge.EntriesContinue | src/server/agent-tool-observation.ts:104-112 | Later observations never drop, move or restart an entry, nor replace its first terminal; the list stays within 32 |
| ToolMerge.TerminalAppliesAtTheCap | src/server/agent-tool-observation.ts:104-112 | A terminal still closes its open entry when the list is full |
| ToolMerge.AcceptedExact | src/server/azure-agent-dispatch-queue.ts:408-412 | The tool lists a heartbeat accepts are exactly those a merge can have made, and they are stored as they are |

## Left out

- Text limits, trimming, redaction and schema checks: strings are opaque, and a check that only they decide is not part of this model.
- Timestamps that decide nothing (`updatedAt`, `recordedAt`) and token-usage parsing.
- SHA-256 is a datatype constructor, so injective; where the code compares digests the model compares what was digested.
- `readHealth`, telemetry, audit and the production Azure clients: reads and wiring without a protocol of their own.
- Message ids come from a counter; the length-based ids of one test port can repeat after deletes.
- DispatchMigrationRuns.MigrationSimulates: relates whole calls; interleavings of the awaited calls are in DispatchMigrationSteps, where the migration is shown to happen in one piece.
- DispatchMigration.UnavailableWritesNothing: a create that throws was not carried out; one that was is a step of DispatchMigrationSteps.
- DispatchQueue.LeaseCallIsRun: the class receives the first visible message; the protocol may hand out any visible one.
- DispatchLoss.NoTaskLost: holds under safe claims, the exact condition, because the unconditional law is false.
- DispatchWorker.AzureCodexWorker.RunOnce: the clock stands still during one call, as in the tests; the take-over and cancellation events of its script are those a test can cause, while the protocol allows any. Preflight and process-tree clean-up are not part of this model.
- DispatchMigratingQueue.MigratingDispatchQueue.Lease: a migrated message that is then poisoned is shown there with its v2 text, where the source copies the text it received; count, id and effect are the same.
- JsonText.PrintRoundTrip: numbers are their shortest decimal text, not doubles; negative zero prints as 0, and cyclic and undefined values are not part of this model.
- RuntimeStorePorts.CosmosRuntimeStore.Write: transport errors other than 409 and 412 pass through and are not part of this model.
- Admission.JournalExact: journal bytes are the list of entries; the audit of a corrupt file is left out beyond its being refused.
- JobMigration.MigratesOnce: of the start-up migration the model has the provider, the missing tenant and the completed job without result; defaults for tools and timestamps are left out.
- JobPaging.PagingIsStable: cursors are job ids, not their base64url text, and search compares text already folded to lower case.
- DurableObservation.NoticesAreConserved: one job, one shared record; several jobs are independent copies.
- JobServing.BlockedUntilRestart: one process; that another process may write the job meanwhile is JobLedger.NoLostUpdate.
- DurableObservation.FinalOutcomeIsKept: only for workers that keep their outcome; the dispatch queue does not promise that (DispatchTerminal.StaleClaimRevives).
- Approval.RunExpiryChain: one process; the chain of a second process over the same store is covered by AuthorityIsFixed, not by the loop.
- A2ACancellation.A2AStore.CancelDispatch: runs in one piece; what other processes do between its calls is in A2ACancellationRuns and A2AParentEnds.
- A2AParentEnds.ParentEndsExactly: writes land, the process stays up, and no outcome is refused (ParentEndedExactly has those that are, LateResultLeavesPending an example); failed writes and crashes are in CallsFollowIntent, CalledAgainExactly, LifeKeeps and CanceledOnlyWhenSettled.
- A2ACancellation.Reconciler.ReconcileRecoverableDispatches: what a child's job answers when it is recovered is an input, as the provider of a job is not part of this model; its writes land.
- A2ADispatch: the prompts and results of children are left out.
- Orchestrator.NothingStartsAfterAbort: deadlines and aborts are one event; which idle worker goes next is arbitrary.
- Collaboration.PlanExact: role names are their catalog positions and prompts are opaque.
- HTTP and JSON-RPC routes, cards and user interface, process spawning and isolation, and remote clients: input, output and operating-system effects.
