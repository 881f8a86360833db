# A verified model of zfs-s3nd

zfs-s3nd receives ZFS send streams, cuts them into chunk objects with a manifest, records them in a SQLite catalog of
incremental chains, and later restores, validates or deletes them. This project models that core in Dafny 4.11 and
proves what it promises: every snapshot the catalog calls committed restores byte for byte, whatever uploads, failures,
retries, crashes and deletions came before and in between, as long as no name has `.` or `..` for a component. The
server's own check lets such names through, and there is a run in which one of them destroys a committed snapshot.

`dafny verify dfyconfig.toml` checks everything.

## How the model is laid out

**The service as a state machine.** `Catalogs.dfy` has the tables as row maps and each SQL statement as a function, with
the schema's cascades, SET NULL, UNIQUE and action-less foreign keys. `Machine.dfy` takes one statement, one
transaction or one object-store call as a step: upload handlers, the cleanup worker and startup reconciliation
interleave freely and the process may crash before any step. Guards state hypotheses of the claims: an upload starts only
under names without dot components, and not in a dataset whose deletion is under way; a deletion does not begin in a
dataset that is being uploaded into; reconciliation runs at startup only. `Hazards.dfy` and `Aliases.dfy` show what goes
wrong without them. `Invariant.dfy` states what every step keeps; `Safety.dfy`, `SafetyEnd.dfy`, `SafetyPurge.dfy`,
`SafetyWorker.dfy` and `SafetyStart.dfy` prove it step by step, and `Theorems.dfy` and `LineageTheorems.dfy` draw the
conclusions for every run.

**Deletions.** `Deletions.dfy` has what a job does in all and what a crash can leave of it, and `Outcomes.dfy` says the
former row by row and object by object; `DeletionRuns.dfy` and `JobRuns.dfy` tie that to the worker's steps. `Footprints.dfy` says what of the disk one deletion sees,
`Interruptions.dfy` that nothing else the service does touches it, and `Resumption.dfy` that a deletion therefore ends
as it would have at once. `Batches.dfy` and `BatchResumption.dfy` do the same for a batch of operations, where it is not
always so.

**Runs that exist.** `Witness.dfy`, `DeletionWitness.dfy` and `Aliases.dfy` build runs from the empty service: one that
stores any given stream, one after which startup cleanup destroys a committed snapshot, one in which it counts an object
twice, one in which a deletion takes a whole dataset, one in which a deletion strands a snapshot, and one in which an
aliased name overwrites a committed chunk.

**The program's own form.** Code that updates things in place is modelled by classes and methods proved against those
functions: `Repositories.dfy` (transactions with rollback), `Storage.dfy` and `Envelopes.dfy` (stores), `Ingest.dfy`
(Receive, whose every call is a step of the machine), `Restore.dfy`, `Deleters.dfy` (the worker), `Abandoned.dfy`
(startup cleanup), `Validation.dfy`, `Limiter.dfy`, `Retry.dfy`, with `Puts.dfy` (which puts land although attempts
fail). Calls that can fail are given a plan that says which of them do: a put or delete may be done, lost, or done
although the caller sees an error; a statement may fail; a timer may fire late; a context may be cancelled, after an
attempt or during a sleep.

**Bytes and names.** `Streams.dfy`, `Manifests.dfy`, `BeginRecords.dfy`, `GuidText.dfy`, `Keys.dfy` and `Paths.dfy`. The
machine uses structured object keys. `Keys.dfy` renders them as strings and says when two of them are one string: exactly
when path.Join cleans them to the same components, which without dot components means never. `Files.dfy` carries a
string-keyed store and UNIQUE on string keys along every run and shows that they agree with the machine's.

SHA-256, JSON, Argon2id, XChaCha20-Poly1305 and base64 are function-valued parameters with the usual laws (`Lawful`,
`Sound`): a hash is not the empty string, decoding undoes encoding, opening undoes sealing. Identifiers are any that were
never used before.

## What the proofs found

- `.` and `..` pass validateName, and path.Join removes them: every dataset shares all its keys with accepted aliases
  (`DotAlias`, `DotDotAlias`). A first chunk put under the alias overwrites the committed one before the catalog turns its
  row down (`AliasDestroys`). Two keys are one string exactly when their cleaned components are equal (`RenderAlike`);
  without dot components they never collide (`RenderInjective`).
- A second cleanup operation queued for a snapshot that another one removes loses its snapshot reference to SET NULL. A
  worker that lists it afterwards takes the dataset branch and removes the whole dataset (`QueuedCleanupReach`;
  `RelistedCleanupDestroys` is such a run). So a batch cut off by a crash is not always resumed to the same end;
  `BatchResumes` says exactly when. One operation is, while no other is on its dataset (`InterruptedDeletion`).
- Foreign keys without an action can stop the last transaction of a snapshot deletion: the session of a failed
  incremental upload keeps its base. The objects are then gone, the row stays behind as deleting, and the operation has
  failed (`DeletionCompletes` gives the exact condition, `FailedIncrementStrands` a run).
- A failed session keeps its manifest key and a retry reuses it, so startup cleanup can delete a committed snapshot's
  manifest: `CleanupCanDestroy` is such a run. A committed snapshot survives cleanup exactly when no listed session has
  noted its manifest's key (`CleanupSpares`).
- Cleanup's seen set is per session, so it reports one object too many for every listed session whose noted key an earlier
  one had noted, and no others (`CountExceeds`, `CountIsDistinct`; `CleanupCountsTwice` is a run).
- Commit does not look at its base again, and failing a snapshot does not look at its status (`CommitIgnoresBase`,
  `LateReconcileUncommits`, `UnseenCommitUndone`).

## Model

| member | source | states |
|---|---|---|
| Manifests.Validate | internal/manifest/manifest.go:81-117 | the one-pass check with its running total accepts exactly the manifests that are well formed as a whole |
| Manifests.Parse | internal/manifest/manifest.go:126-135 | parses, then accepts exactly what Validate accepts |
| Streams.ChunksTile | internal/ingest/service.go:153-165 | the chunk list of any stream starts at 0, meets without gap or overlap, and ends at the stream's size |
| Streams.ManifestAccepted | internal/ingest/service.go:174-184 | the manifest of a received stream passes Validate exactly when all four names are present |
| Streams.HeldStreamRestores | internal/restore/restore.go:15-66 | a store that holds the parts and the manifest restores exactly the bytes that were sent |
| Restore.StreamSnapshot | internal/restore/restore.go:15-66 | reports success exactly when every chunk, the total and the stream hash are right; then it has written exactly the stream, and whatever goes wrong exactly the data of the chunks before the first missing or corrupt one |
| Storage.MemoryStore.PutBytes | internal/storage/memory.go:22-29 | the object is in place when it reports success; after an error it may or may not be |
| Storage.MemoryStore.GetBytes | internal/storage/memory.go:31-39 | the object, or none |
| Storage.MemoryStore.Delete | internal/storage/memory.go:60-65 | the key is gone, also when it was not there |
| Lineage.ChainShape | internal/catalog/db/catalog.sql.go:1825-1838 | over acyclic links the recursive query ends, starts at a parentless snapshot, ends at its target, and follows parent links |
| Lineage.ChainUnique | internal/catalog/db/catalog.sql.go:1825-1838 | that path is the only one |
| Lineage.CountIsDependents | internal/catalog/db/catalog.sql.go:85-99 | when parents of committed snapshots are committed, the pruned recursive count is the number of committed snapshots whose chain passes through the one in question |
| Lineage.RemoveRows | migrations/000001_initial.sql:57 | removing rows no remaining row points to keeps the links acyclic and the remaining chains |
| SafetyStart.StepKeeps | internal/ingest/service.go:79-211 | every step of every process, and a crash, keeps the whole invariant of catalog, store and running uploads; uploads start only under names without dot components |
| SafetyStart.RunKeeps | internal/ingest/service.go:79-211 | so the invariant holds after every such run |
| SafetyPurge.PurgeCatalog | migrations/000001_initial.sql:53-125 | every removal with its cascades and SET NULL keeps all foreign keys, uniqueness, statuses and links consistent |
| SafetyPurge.RemoveSnapshotIsPurge | internal/deletion/deletion.go:71-84 | the two deletes closing a snapshot deletion act as one removal, stopped by the same references |
| SafetyWorker.DatasetDeletable | internal/deletion/deletion.go:114-128 | a dataset deletion is never stopped by a foreign key |
| Theorems.CommittedSnapshotsRestore | internal/ingest/service.go:117-204 | after every run under names without dot components, restoring any committed snapshot yields exactly the bytes its session wrote, with the recorded size and hash |
| Theorems.CommittedRowsTile | internal/ingest/service.go:153-165 | in every reachable state, under names without dot components, the chunk rows of a committed snapshot are 0 to count-1, tile its bytes, and each object is stored with the recorded size and hash |
| Theorems.CommittedEndedWell | internal/catalog/repository.go:225-235 | in every reachable state a committed snapshot has a complete session and a succeeded operation |
| Theorems.SessionsMatchSnapshots | internal/catalog/repository.go:421-434 | no crash, in startup reconciliation or elsewhere, leaves a failed session beside an uploading snapshot |
| Theorems.ChunkRowsAccepted | internal/catalog/repository.go:206-211 | under names without dot components the schema never rejects the row of a chunk an upload has just stored |
| Files.RunMirrors | internal/storage/memory.go:22-65 | along every run the string-keyed store holds the structured store's objects and no others |
| Files.FilesFollow | internal/storage/keys.go:32-42 | so it does in every run from the empty service |
| Files.RowsAcceptedByText | migrations/000001_initial.sql:94-109 | with UNIQUE(object_key) compared on strings the row of a chunk just stored is accepted in every run, with the same effect |
| Files.CommittedFilesRestore | internal/restore/restore.go:15-66 | after every run, reading the objects of a committed snapshot by their string keys restores exactly the bytes its session wrote |
| Aliases.SafeRuns | internal/sshserver/command.go:42-64 | the machine's runs are exactly the runs under names the server accepts in which no name has a dot component |
| Aliases.AliasDestroys | internal/ingest/service.go:138-155 | a run under names the server accepts after which a committed snapshot, its row unchanged, no longer restores from the string-keyed store, and the row of the chunk that overwrote it is rejected |
| Theorems.RetryNeverBlocked | internal/catalog/repository.go:174-183 | nothing refers to a failed or aborted snapshot, so a retry can always replace it |
| LineageTheorems.ReachableChains | internal/catalog/repository.go:257-267 | in every reachable state chains exist, stay in one dataset, and are fully committed under a committed target |
| LineageTheorems.ChainsNeverExceedLimit | internal/catalog/repository.go:161-170 | if every upload started with a positive limit of at most L, no chain is ever longer than L |
| LineageTheorems.CountIsExact | internal/deletion/deletion.go:53-59 | in every reachable state the worker's count is the number of committed snapshots that need the one to be deleted |
| LineageTheorems.OthersKeepChains | internal/deletion/deletion.go:53-89 | once the count allowed it, marking and removing a snapshot leaves every other committed chain unchanged and committed |
| Deletions.CrashThenResume | internal/deletion/deletion.go:45-148 | from any disk a job can leave behind, running it again ends in the same catalog and store |
| Deletions.StillListed | internal/catalog/db/catalog.sql.go:1668-1675 | until its last step the job is listed again with the same references |
| Deletions.NotListedAfter | internal/catalog/db/catalog.sql.go:1668-1675 | after its last step it is not |
| Outcomes.OutcomeSaid | internal/deletion/deletion.go:45-148 | a job that is not refused removes exactly the objects its targets' rows name; then either exactly the targets' rows go, with their sessions and chunk rows, and the operation succeeds, or, when another snapshot or another snapshot's session still needs the target, its row is marked and the operation fails; no other row or object differs but for cleared references |
| JobRuns.JobRun | internal/deletion/worker.go:63-86 | from every state that keeps the invariant the worker can carry its first job out, by its own steps, to the job's outcome |
| DeletionRuns.BegunMidway | internal/deletion/worker.go:63-66 | beginning a job puts it at a disk it resumes from |
| DeletionRuns.StepMidway | internal/deletion/deletion.go:53-89 | with nothing in between, the worker's steps stay at disks the job resumes from, until the last, which leaves exactly the job's outcome |
| DeletionRuns.CrashAnywhere | internal/deletion/worker.go:42-86 | with nothing else in between, a crash at any point of a deletion, then another run of it, ends in exactly the same catalog and store |
| Footprints.OutcomeSame | internal/deletion/deletion.go:45-148 | a deletion leaves the same rows of its dataset, the same operation and the same objects on any two disks that agree on those |
| Interruptions.OtherStep | internal/catalog/repository.go:421-434 | uploads into other datasets, other deletions, queueing, crashes and startup reconciliation leave the footprint of a pending deletion as it is |
| Resumption.StepAwaits | internal/deletion/deletion.go:53-89 | after any step, the deletion's own or another, the deletion is still to be done with the same final footprint, or has ended with it |
| Resumption.InterruptedDeletion | internal/deletion/worker.go:42-86 | over every run, with any number of crashes at any points, restarts, reconciliations, uploads and deletions elsewhere, a listed operation ends with the footprint it would have left at once, or is still listed and would |
| DeletionRuns.RemovedKeysForeign | internal/deletion/deletion.go:60-70 | in every reachable state no key a deletion removes belongs to a committed snapshot |
| Cleanups.QueuedCleanupReach | internal/deletion/worker.go:73-80 | an operation queued for one snapshot changes nothing outside it, except exactly when that row is gone and its dataset is not: then the dataset goes |
| Cleanups.QueueingTracks | internal/web/datasets.go:259-262 | right after queueing the operation refers to its snapshot and dataset |
| Cleanups.SnapshotBranch | internal/deletion/deletion.go:45-89 | the snapshot branch stays inside its snapshot whether refused, blocked or carried out |
| Cleanups.DatasetBranch | internal/deletion/deletion.go:95-129 | the dataset branch removes the dataset and every snapshot in it |
| Cleanups.OutcomeFollows | migrations/000001_initial.sql:117-118 | a job clears exactly the references of other operations to rows it removed |
| Batches.OutcomeCatalog | internal/deletion/worker.go:63-86 | a whole job keeps the catalog consistent |
| BatchResumption.BatchResumes | internal/deletion/worker.go:42-60 | after a crash at any point of any job of a batch of any length, exactly the open operations are listed again, and each leaves the disk it would have left if and only if every one still has its rows, or has lost its snapshot but stands behind a remaining operation on the whole dataset |
| BatchResumption.RowsLost | internal/deletion/worker.go:51-60 | a job has lost its rows exactly when an earlier one of the batch went through and took them |
| BatchResumption.ApartResumes | internal/deletion/worker.go:42-60 | so a batch none of whose jobs takes another's rows resumes to the same disks wherever it is cut off |
| BatchResumption.OutcomeRows | internal/deletion/deletion.go:45-129 | a job removes exactly its own snapshot or dataset rows when it goes through, and none otherwise |
| BatchResumption.GoneOutcome | internal/deletion/worker.go:73-86 | a job whose rows are gone closes its operation and changes nothing else |
| Batches.SecondCleanupTakesDataset | internal/deletion/worker.go:73-80 | of two operations on one snapshot, the second, relisted after the first, removes the dataset |
| DeletionWitness.RelistedCleanupDestroys | internal/deletion/worker.go:73-80 | a run from the empty service in which two operations for one snapshot, a crash between them and a restart remove the dataset and another committed snapshot |
| Batches.DeletionCompletes | migrations/000001_initial.sql:57-80 | a permitted snapshot deletion completes if and only if no other row has the snapshot as parent or base; otherwise its objects are gone and its row is left as deleting |
| DeletionWitness.FailedIncrementStrands | migrations/000001_initial.sql:80 | a run in which a failed incremental upload makes the deletion of its base end with the row left as deleting, the operation failed and the objects gone |
| Deleters.CountByRounds | internal/catalog/db/catalog.sql.go:85-99 | the round-by-round loop computes the recursive count |
| Deleters.Deleter.DeleteObjects | internal/deletion/deletion.go:131-148 | deletes each key once and counts the distinct keys; when a call fails it stops there, with the keys before it deleted and counted |
| Deleters.Deleter.ListKeys | internal/catalog/db/catalog.sql.go:1785-1795 | the chunk keys and manifest keys of the job's snapshots |
| Deleters.Deleter.MarkRows | internal/catalog/db/catalog.sql.go:1018-1039 | exactly the rows of the job's snapshots become deleting |
| Deleters.Deleter.DeleteSnapshotWithOperation | internal/deletion/deletion.go:45-89 | touches nothing while committed snapshots depend on the target, otherwise removes it or stops where it can be resumed |
| Deleters.Deleter.DeleteDatasetWithOperation | internal/deletion/deletion.go:95-129 | removes the dataset or stops where it can be resumed |
| Deleters.Deleter.RemoveTargets | internal/deletion/deletion.go:60-88 | list, mark, delete objects, and close in one transaction, or stop at a disk it can be resumed from |
| Deleters.Deleter.CloseJob | internal/deletion/deletion.go:71-88 | the closing transaction does everything or nothing |
| Deleters.Deleter.RunOperation | internal/deletion/worker.go:63-86 | brings about the job's outcome, or leaves a disk it can be resumed from with or without a failed mark |
| Deleters.Deleter.ListPending | internal/catalog/db/catalog.sql.go:1668-1675 | distinct queued or running cleanup operations, oldest first, up to the limit; any left out is no older than those listed, and none is left out below the limit |
| Deleters.Deleter.RunOnce | internal/deletion/worker.go:27-61 | runs the listed jobs in order, each on what the one before left, whatever fails on the way; when nothing fails it counts successes, failures and objects |
| Deleters.Deleter.QueueSnapshotDeletion | internal/web/datasets.go:243-264 | queues exactly for an existing snapshot that no committed one depends on: one more row, a queued cleanup operation for that snapshot and its dataset, and no other row differs |
| Deleters.Deleter.QueueDatasetDeletion | internal/web/datasets.go:266-278 | queues exactly for an existing dataset: one more row, a queued cleanup operation for it and no snapshot, and no other row differs |
| Deleters.QueueingIsStep | internal/web/datasets.go:259-262 | queueing is the step of the machine |
| Deleters.QueuedIsListed | internal/deletion/worker.go:73-80 | the worker lists what was queued as a job for that snapshot alone, or for all snapshots of the dataset, and as nothing else |
| Repositories.Repository.ResolveDataset | internal/catalog/repository.go:95-133 | finds the dataset by name or creates one row under a new identifier |
| Repositories.Repository.RestoreChain | internal/catalog/repository.go:257-259 | the loop over parent links returns the restore chain |
| Repositories.Repository.TryStart | internal/catalog/repository.go:146-204 | turns a request down exactly for a missing, uncommitted or too deep base or an existing snapshot that is not replaceable; otherwise inserts the three rows |
| Repositories.Repository.StartUpload | internal/catalog/repository.go:135-144 | the same in a transaction that leaves no trace when it fails |
| Repositories.Repository.AddVerifiedChunk | internal/catalog/repository.go:206-211 | one more row, or none when a constraint or the database rejects it |
| Repositories.Repository.UpdateUploadStatus | internal/catalog/repository.go:213-219 | the session's status, nothing else |
| Repositories.Repository.SetUploadManifestObjectKey | internal/catalog/repository.go:221-223 | the session's manifest key and status, nothing else |
| Repositories.Repository.CommitUpload | internal/catalog/repository.go:225-235 | all three updates or none |
| Repositories.Repository.FailUpload | internal/catalog/repository.go:237-251 | all three updates or none |
| Repositories.Repository.ReconcileStaleUploads | internal/catalog/repository.go:403-440 | under an operation of its own, the fold over the listed sessions; when a statement fails, over a prefix with the next one partly done |
| Repositories.ReconciliationApart | internal/catalog/repository.go:417-419 | that operation's row and the rows the loop changes do not meet |
| Startup.ReconciledRows | internal/catalog/repository.go:421-434 | every listed session and its snapshot end failed, and those of their operations that were queued or running; every other row is as it was |
| Startup.ReconcileIsRun | cmd/zfs-s3nd/main.go:124-131 | listing and reconciling is a run of the machine that ends in the loop's rows |
| Readers.ReadFull | internal/ingest/service.go:118 | however the reader cuts the stream, a full buffer is its next bytes |
| Ingest.Service.Put | internal/ingest/service.go:213-264 | one put with its retries: it lands with the object in place, or no attempt at it is ever done before the loop gives up |
| Ingest.Service.StoreChunk | internal/ingest/service.go:137-165 | put, check, record and report one chunk as steps of the machine, extending the stored parts by exactly that data |
| Ingest.Service.ReadStream | internal/ingest/service.go:117-169 | the chunk loop stores the whole stream cut every chunk size, with its running hash, offset and chunk list; while no statement fails it does so exactly when the reader ends without an error, the client is still there at the last read, and every chunk's put lands |
| Ingest.Service.StoreManifest | internal/ingest/service.go:181-196 | the manifest is stored and its key noted; while no statement fails, exactly when it is well formed and its put lands |
| Ingest.Service.CommitStream | internal/ingest/service.go:170-204 | from the last chunk to the committed row |
| Ingest.Service.FailReceive | internal/ingest/service.go:101-108 | a failure ends with the snapshot, session and operation failed, or with the snapshot still uploading when that could not be recorded |
| Ingest.Service.Receive | internal/ingest/service.go:79-211 | under names without dot components: on success the stream restores from the store under the returned key, the manifest and catalog record it, and every chunk is the stretch of the stream its offsets say, all but the last of exactly the chunk size; while no statement fails it succeeds exactly for a non-empty stream that arrives whole, is not refused and all of whose puts land, and otherwise records the failure; and it is a run of the machine |
| RoundTrips.ReceiveThenRestore | internal/ingest/service.go:117-210 | after a successful Receive, StreamSnapshot through the encrypted store writes exactly the stream and reports no error; and Receive succeeds exactly under the conditions above |
| Retry.PutBytesWithRetry | internal/ingest/service.go:213-264 | tries until an attempt is done, the caller has given up after an attempt or during its sleep, or the elapsed time of attempts, sleeps and late timers has used up the budget, whichever comes first, and succeeds exactly in the first case, with the object in place; every sleep is positive, at most 30 s, due within the budget, and the doubled backoff or what is left; attempts are bounded |
| Retry.WithinBudget | internal/ingest/service.go:226-262 | a put that would be done is reached as long as the caller stays and the attempt before it ends within the budget |
| Retry.BackoffDoubles | internal/ingest/service.go:257-262 | the backoff doubles up to 30 s |
| Retry.AttemptsBound | internal/ingest/service.go:239-250 | all attempts but two, each at the first sleep, fit into the budget |
| Retry.DefaultAttempts | internal/ingest/service.go:66-70 | with the defaults at most 19 attempts |
| Puts.PartsRead | internal/ingest/service.go:117-136 | how many chunks a stream has, and which read finds its end |
| Puts.OneMore | internal/ingest/service.go:139-142 | of puts made one after the other, one more lands exactly when some attempt at it, from the call where the others ended, is done before the loop gives up |
| Puts.NothingFails | internal/ingest/service.go:226-230 | when no call fails every put lands |
| Abandoned.Cleaner.Cleanup | internal/cleanup/cleanup.go:37-75 | exactly the listed sessions, their snapshots and what cascades are gone, and exactly the objects they tracked; the counters add up; when a call fails, this holds of the sessions before, and the one it stopped in is partly done |
| Abandoned.Cleaner.CleanOne | internal/cleanup/cleanup.go:38-73 | the same for one session, or a stop with some of the tracked objects gone and counted, or all of them and then the snapshot row |
| Abandoned.Cleaner.RemoveObjects | internal/cleanup/cleanup.go:43-62 | each tracked key once, chunks first |
| Abandoned.NeverBlocked | internal/cleanup/cleanup.go:64-69 | nothing refers to the snapshot of a failed or aborted session |
| AbandonedTheorems.CountExceeds | internal/cleanup/cleanup.go:43-62 | in a consistent catalog the count exceeds the number of distinct objects by the number of listed sessions whose noted key an earlier one had noted |
| AbandonedTheorems.CountIsDistinct | internal/cleanup/cleanup.go:43-62 | so it is that number if and only if no two listed sessions noted the same manifest key |
| AbandonedTheorems.CleanedSaid | internal/cleanup/cleanup.go:37-73 | exactly the listed sessions go, with their snapshots and chunk rows, and exactly the objects they recorded or noted; every other row is as it was but for cleared references |
| AbandonedTheorems.CleanupSpares | internal/cleanup/cleanup.go:55-62 | a committed snapshot restores as before if and only if no listed session noted its manifest's key |
| AbandonedTheorems.CleanupKeeps | cmd/zfs-s3nd/main.go:141-149 | under that condition cleanup at startup keeps the invariant, so runs and cleanups may alternate |
| AbandonedTheorems.RunKeys | internal/catalog/repository.go:221-235 | sessions only ever note manifest keys |
| AbandonedTheorems.RetryReusesKey | internal/ingest/service.go:185-194 | a failed session keeps its key through a retry that will write under the same key |
| Validation.Validator.WriteManifestStream | internal/validation/validation.go:283-328 | succeeds exactly when every chunk, the total and the hash are right and the reader took every byte |
| Validation.Validator.CheckStream | internal/validation/validation.go:266-281 | the checker's GUIDs, only for a whole stream it read to the end |
| Validation.Validator.VerifyManifestAndObjects | internal/validation/validation.go:223-264 | the manifest, exactly when it parses, the snapshot has a catalog row for exactly the numbers below its chunk count, each with the chunk's key, size and hash, and every object is there with its size and hash |
| Validation.Validator.ValidateChain | internal/validation/validation.go:64-150 | accepts exactly the chains that pass every check; then every snapshot of the chain restores from root to target, and its catalog rows, manifest and objects agree in number, key, size and hash |
| Validation.ValidRestores | internal/validation/validation.go:64-150 | acceptance implies restorability for every checker, also one that stops reading early |
| Validation.ChainOkMatches | internal/validation/validation.go:223-264 | acceptance implies that the catalog rows, manifests and objects of the whole chain agree |
| Validation.MismatchRefused | internal/validation/validation.go:237-244 | a chain is turned down for a row too many, one missing, or one with another key, size or hash than the manifest's chunk, in any of its snapshots |
| Validation.Validator.ValidateSnapshot | internal/validation/validation.go:152-221 | accepts exactly the snapshots that pass every check against their row and their parent's; those restore, and their catalog rows, manifest and objects agree in number, key, size and hash |
| Validation.SnapshotsMakeChain | internal/validation/validation.go:133-148 | snapshots that all pass on their own pass as a chain if and only if catalog and stream agree, for each but the last, on whether there is a toguid |
| AutoReceive.AutoChainsValidate | internal/sshserver/server.go:412-436 | after every run of uploads whose bases were found by GUID, every committed chain is accepted by a checker that reports the begin records' GUIDs |
| AutoReceive.RunGuids | internal/sshserver/server.go:412-422 | along committed parent links each fromguid is the parent's toguid |
| AutoReceive.HandlerRunIsAuto | internal/sshserver/server.go:412-436 | a handler that starts on the base its fromguid names makes a run of the kind those claims are about |
| Lookups.StartAfterLookup | internal/sshserver/server.go:412-436 | however much happens between the lookup by GUID and the start, the upload starts on the snapshot found, as long as its row is still there |
| Lookups.LookedUpIsAuto | internal/sshserver/server.go:412-436 | runs whose bases were looked up at any earlier point and not removed since are runs of that kind |
| Lookups.LookedUpChainsValidate | internal/sshserver/server.go:412-436 | so in them every committed chain is accepted too |
| Server.ChooseBase | internal/sshserver/server.go:412-422 | no base for a full stream, else a committed snapshot of the dataset at the fromguid, or an error when there is none or the lookup fails |
| Server.AskFor | internal/sshserver/server.go:385-422 | from the header to the request: nothing when it is no begin record, a name is not accepted, no base is found or the lookup fails; otherwise what the record says, on that base |
| Server.RunAutoReceive | internal/sshserver/server.go:372-447 | asks for an upload exactly when the stream begins with a record whose names are accepted and the fromguid is zero or a committed snapshot of the dataset ends there, and then under those names and GUIDs and on that base; while no statement fails it succeeds exactly when it asks, startUpload does not refuse, the stream arrives whole and every put lands; it stores the whole stream, header included, and is a run of the machine with bases found by GUID |
| Envelopes.EncodeThenDecode | internal/storage/encrypted.go:197-221 | decoding undoes encoding exactly for headers of 1 to 2^32-1 bytes |
| Envelopes.DecodeThenEncode | internal/storage/encrypted.go:197-221 | encoding undoes decoding exactly for data that starts with the magic |
| Envelopes.CacheKeyInjective | internal/storage/encrypted.go:173 | different parameters never share a cache key, also when the salt contains slashes |
| Envelopes.CacheGrows | internal/storage/encrypted.go:173-182 | caching a derived key keeps every cached key equal to a fresh derivation |
| Envelopes.SealedOpens | internal/storage/encrypted.go:61-158 | opening an envelope gives back what was sealed |
| Envelopes.OpenedIs | internal/storage/encrypted.go:133-158 | what decryption gives, said by layout, header fields, derived key and seal |
| Envelopes.PlaintextByText | internal/storage/encrypted.go:223-225 | for every accepted name, the keys stored in the clear are those whose string ends in the manifest file |
| Envelopes.EncryptedStore.AeadFor | internal/storage/encrypted.go:160-188 | always the freshly derived key, for exactly the headers of version 1, XChaCha20-Poly1305 and argon2id with no zero parameter |
| Envelopes.EncryptedStore.PutBytes | internal/storage/encrypted.go:61-95 | the plaintext view gains exactly this object; of the base store only this key differs, and it holds a manifest as it is, and a chunk as magic, header length, a standard header naming the nonce, and the data sealed under the derived key |
| Envelopes.EncryptedStore.GetBytes | internal/storage/encrypted.go:97-110 | the plaintext view's object: a manifest as it is stored, a chunk exactly when its envelope has the right layout, a supported header and opens under the key derived for it |
| Envelopes.EncryptedStore.Head | internal/storage/encrypted.go:120-127 | the plaintext's size and hash |
| Envelopes.EncryptedStore.Delete | internal/storage/encrypted.go:129-131 | the plaintext view and the base store lose exactly this object |
| Keys.EncodeIsPercent | internal/storage/keys.go:48-54 | the shortcut and the general path are one percent-encoding (section 2.1 of RFC 3986) |
| Keys.EncodeInjective | internal/storage/keys.go:48-54 | it is one-to-one on all strings |
| Keys.ValidNameIs | internal/sshserver/command.go:42-52 | the three tests amount to one on the characters |
| Keys.ValidDatasetIs | internal/sshserver/command.go:54-64 | exactly the valid names joined by single slashes |
| Keys.KeptIs | internal/storage/keys.go:52 | which bytes are left as they are |
| Keys.BuildDatasetPrefix | internal/storage/keys.go:17-26 | the loop over the components builds the prefix |
| Keys.TrimSlashesIs | internal/storage/keys.go:18 | the root prefix loses the slashes at both its ends and nothing else |
| Keys.ChunkFileIs | internal/storage/keys.go:36-38 | a chunk's file is its index in decimal, in twelve digits or as many as it takes, and the suffix |
| Keys.RenderCleaned | internal/storage/keys.go:17-42 | for every name the server accepts, the nested joins amount to one list of components, cleaned once |
| Keys.RenderAlike | internal/storage/keys.go:17-42 | two keys of accepted names are one string if and only if their cleaned components are equal |
| Keys.RenderIsJoin | internal/storage/keys.go:32-42 | without dot components nothing is cleaned away |
| Keys.RenderInjective | internal/storage/keys.go:36-42 | keys of accepted names without dot components never collide, chunk or manifest |
| Keys.OnlyManifestsArePlaintext | internal/storage/encrypted.go:223-225 | for every name the server accepts, dot components included, exactly manifest keys count as plaintext metadata |
| Keys.MirrorsOperations | internal/storage/memory.go:22-65 | one put, delete or get under a rendered key does what it does under the structured key |
| Keys.DotAlias | internal/sshserver/command.go:42-64 | every dataset the server accepts shares its keys with another one it accepts, whose path has a dot component |
| Keys.DotDotAlias | internal/sshserver/command.go:42-64 | so does a detour through any other component and ".." back |
| BeginRecords.BeginRoundTrip | internal/zfsstream/parse.go:36-70 | parsing the record that was written in either byte order gives back its names, its GUIDs as text, "0" exactly for zero, and feature bits 22 and 24 |
| BeginRecords.ParseIsRecord | internal/zfsstream/parse.go:36-70 | on any bytes, parsing gives exactly the names, GUID texts and features of a begin record in either byte order, and nothing when they are not one |
| BeginRecords.MagicOneWay | internal/zfsstream/parse.go:72-80 | no bytes match the magic in both orders |
| BeginRecords.SplitIsJoin | internal/zfsstream/parse.go:89-101 | accepted names are exactly pool/dataset@snapshot with non-empty parts, and the parts come back |
| BeginRecords.CStringRoundTrip | internal/zfsstream/parse.go:82-87 | a padded name reads back |
| GuidText.FormatInjective | internal/zfsstream/parse.go:103-108 | different GUIDs have different texts |
| GuidText.FormatText | internal/zfsstream/parse.go:103-108 | the text is "0" for zero and only for zero, otherwise 0x and lower-case hexadecimal digits without a leading zero whose value is the GUID; no other text is |
| GuidText.SpellingCanonical | internal/validation/validation.go:357-368 | every hexadecimal spelling of a 64-bit GUID, with any Latin-1 white space around it, has the GUID's text as its canonical form |
| GuidText.OthersLowered | internal/validation/validation.go:357-368 | what spells no 64-bit GUID is only trimmed and put into lower case |
| GuidText.CanonicalIdempotent | internal/validation/validation.go:357-368 | canonical form is canonical, with Latin-1 white space and ASCII case |
| Limiter.EffectiveRate | internal/sshserver/rate_limit.go:24-33 | a client's request never loosens the configured rate, and a lower one is honoured |
| Limiter.Burst | internal/sshserver/rate_limit.go:42-48 | a quarter of a second's bytes, kept between 32 KiB and 1 MiB |
| Limiter.RunFilled | internal/sshserver/rate_limit.go:60-105 | every run keeps the tokens between zero and the burst, refunds included |
| Limiter.WindowBound | internal/sshserver/rate_limit.go:60-105 | over every window of every run at most the burst plus rate times window is handed out |
| Limiter.WaitSuffices | internal/sshserver/rate_limit.go:77-81 | after the computed wait there is a whole token |
| Limiter.Wait | internal/sshserver/rate_limit.go:77-81 | the time until there is a whole token, rounded up to a nanosecond, and at least a millisecond |
| Limiter.RateLimitedReader.Take | internal/sshserver/rate_limit.go:67-75 | asks for all it wants or every whole token, and ends with the tokens less exactly what the read returned |
| Limiter.RateLimitedReader.RefillAt | internal/sshserver/rate_limit.go:97-105 | the tokens gained since the last refill, up to the burst; none when the clock ran backwards |
| Limiter.RateLimitedReader.Read | internal/sshserver/rate_limit.go:60-95 | sleeps once exactly when there is less than a token, for the time that takes; then asks for all it wants or every whole token and pays for what it got; its effect is a run of the bucket with exactly the bytes returned |
| Witness.AnyStreamCanBeStored | internal/ingest/service.go:79-211 | from the empty service a run exists that stores any non-empty stream under any accepted name without dot components and leaves it restorable |
| Witness.CleanupCanDestroy | internal/cleanup/cleanup.go:55-62 | a run exists after which cleaning up one listed session makes a committed snapshot unrestorable |
| Witness.CleanupCountsTwice | internal/cleanup/cleanup.go:43-62 | a run exists with two failed attempts that noted one manifest key, after which cleanup counts one object more than there are |
| Hazards.CommitIgnoresBase | internal/catalog/repository.go:225-235 | a commit after its base was marked for deletion leaves a committed snapshot with an uncommitted parent |
| Hazards.LateReconcileUncommits | internal/catalog/db/catalog.sql.go:562-566 | a reconciler that comes after the commit turns a committed snapshot into a failed one |
| Hazards.UnseenCommitUndone | internal/ingest/service.go:101-108 | a commit that took effect although its caller saw an error is undone by the failure path, and a snapshot committed onto it in between has lost its parent |

## Left out

- Repositories.Repository.ResolveDataset: sources and pools have no tables of their own; a dataset row carries the three names, and creating and touching source and pool rows is not modelled.
- Timestamps of sessions: which are stale or abandoned is any choice the status allows, in any order.
- The operation row of startup reconciliation as part of the machine (Repositories.ReconciliationApart says why it does not matter there), validation jobs and the validation status columns: they decide nothing here.
- The periodic reconciler as part of the machine: Hazards.LateReconcileUncommits shows why its claims would not hold.
- A commit that takes effect although its caller sees an error, as a step of the machine: Hazards.UnseenCommitUndone shows why its claims would not hold.
- Startup cleanup as a step of the machine: AbandonedTheorems.CleanupKeeps shows when it keeps the invariant.
- Cleanups.QueuedCleanupReach: what the dataset branch then removes is stated by Cleanups.DatasetBranch for rows only; the objects it removes are those listed for the dataset.
- DeletionRuns.StepMidway: no step of another process in between; Resumption.StepAwaits allows them.
- DeletionRuns.CrashAnywhere: no step of another process and no reconciliation in between; Resumption.InterruptedDeletion allows them.
- Resumption.InterruptedDeletion: uploads into the same dataset, other cleanup operations on it and jobs that end early on an error are not among the steps in between; rows are compared up to the statuses that reconciliation gives up, so uploading, failed and deleting count as one.
- BatchResumption.BatchResumes: nothing but the worker runs between the crash and the end of the batch, and the open operations are listed in their old order, as Deleters.Deleter.ListPending does when no two were queued at the same time.
- Restore.StreamSnapshot: errors of the output writer and of reading an existing object are not modelled; the output is the bytes written.
- Ingest.Service.Receive: when a statement fails, only what success and failure imply is stated, not which of them it is. Other processes do not interleave inside the method; interleaving is the machine's subject, of which Receive is shown to be a run.
- Server.RunAutoReceive: the same of failing statements; the stall timer, progress reports and rate limit around the reader are not part of it, and other processes do not interleave inside the method; Lookups.StartAfterLookup says what they may do between its lookup and its start.
- GuidText.CanonicalIdempotent: white space and case beyond Latin-1 and ASCII are not modelled.
- Limiter.RateLimitedReader.Read: tokens are reals, so rounding of floating point is not modelled.
- The validation runner's rows and zstreamdump's output: a checker is any function from the bytes it read to GUIDs or an error.
- Integer width of sizes and offsets: 64-bit overflow is not modelled.
- SSH, web pages, settings, catalog backup, metrics and the S3 client.
