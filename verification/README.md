# integrity-sum: a verified model

integrity-sum guards the files of running containers. A *snapshot tool* hashes the watched
directories of an image and writes a text file. A *Snapshot* resource carries that text, encoded,
into a cluster, where a *controller* decodes it and stores it as an object. A *monitor* beside the
running process later loads the object, hashes the same directories again, and compares.

This project models that story in Dafny and proves what can be relied on:

* **the controller** as a protocol over API versions, a lagging cache, an object store, user edits,
  failing calls and crashes, with `Reconcile` as an imperative refinement of it
  (`Controller`, `ControllerInvariant`, `ControllerRelease`, `ControllerTheorems`, `ControllerRuns`,
  `Reconciler`, `CallResults`, `Triggers`, `Neighbours`);
* **the concurrent check** as goroutines over channels under every schedule, first the
  walker and the pool of workers, then the draining snapshot tool and the comparing monitor
  (`Pipeline`, `HashDir`, `Cancellation`, `Monitor`, `MonitorTheorems`, `MonitorRuns`, `MonitorLeftovers`,
  `MonitorEnds`);
* **the snapshot text, the object names and the monitoring options**, printer against parser and
  writer against reader (`GoStrings`, `SnapshotText`, `ObjectKey`, `MonitoringOptions`);
* **the paths** that walking a directory reports, and what is left when the root is taken off (`Walk`);
* **hashing**: the incremental hash around an abstract C primitive, the C loop over a file, and the choice
  between them (`Bee2`, `Hasher`);
* and **the whole story**: a check passes, under any schedule, if and only if every path has the same
  hash as when the snapshot was taken (`EndToEnd`).

`dafny verify dfyconfig.toml` checks everything.

## Assumptions

* The API server takes a write only if it is based on the latest version; a write that changes nothing
  makes no version; an object being deleted disappears with its last finalizer.
* Nobody but the controller writes the status of a Snapshot.
* Reconciles of one Snapshot do not overlap. The cache may lag by any amount but never goes back.
* A remote call works and says so, works and reports an error, or does nothing and reports an error.
  It does not take effect after it has reported.
* md5 and base64 decoding are arbitrary functions; the theorems hold for all of them. What is needed of
  md5 shows up as a hypothesis (`NoRevertIsSafe`) or in an exact condition (`Unsafe`).
* The C primitive is three arbitrary functions. That it keeps its buffer sizes, that absorbing two
  pieces is absorbing their concatenation, and that a start forgets the buffer's old contents are
  the predicates `Sized`, `Streams` and `Forgets`, hypotheses of the lemmas that need them.
* While a tree is hashed its files do not change. Directory entries have names as an operating system gives
  them; watched directories may be written in any way that does not lead out of the root.
* `Reachable` stands for runs in which only the controller takes its own finalizer off and nobody else writes
  under the names that the Snapshot is given. Image, algorithm and hashes may be edited at will, and
  Snapshots may be deleted and created again. Where creation has to put the finalizer on, `Guarded` says so.
  `ControllerRuns` has runs that show what happens without each of these.

## Where the code is not what one might think

* If the first attempt to set up the storage client fails, because the secret is not there yet, say, no later
  call of `Reconcile` does anything until the process is restarted (`ClientMayBeLost`,
  `LostClientStaysLost`). So one undisturbed reconcile resolves a Snapshot exactly when the client is not
  lost and the name can be built (`OneReconcileResolves`).
* When an upload fails, `Reconcile` reports success. If the status did not claim an upload before, the
  write of the status changes nothing and nothing calls for another attempt, short of a
  periodic resynchronisation of the client library (`FailedUploadStays`; exactly when: `FailedUploadIsRetried`).
  Apart from such given-up uploads, lost clients and names that cannot be built, nothing is forgotten
  (`NothingIsForgotten`).
* Only the encoded hashes are compared, so a change of image or algorithm alone uploads nothing, and the
  status goes on saying that everything is uploaded (`ImageEditIsNotUploaded`). It can also be wrong after a
  revert: contents A uploaded and reported, B uploaded but not reported, A again.
  `CoherentExactlyWhenSafe` says for which edits of image, algorithm and hashes the status can be
  trusted. The ordinary upgrade, a new image with new hashes, is among them (`NoRevertIsSafe`).
* The top-level README says (line 346) that deleting the resource deletes the stored data. That holds for the
  name the Snapshot has when it is deleted; objects that earlier edits stored under another name stay, and
  everything stays without the finalizer, which the controller takes off but never puts on.
  `RemovedExactlyWhen` says for which edits and finalizers nothing is left.
* The comment above `CheckSumFile` describes `name:tag.algorithm`; the code returns
  `namespace/name/tag.algorithm`, and the model follows the code.
* An image whose registry has a port has two colons; the tag then plays no part in the name, and all its tags
  share one object (`RegistryPortLosesTag`); deleting one tag's Snapshot takes the object away from the
  others, whose status does not notice (`SharedNameLosesObject`). Snapshots can be trusted beside each other
  exactly if they never get the same name (`TrustedExactlyWhenApart`).
* An image without a colon is an error for the monitor and a panic in the controller (`NamesAgree`).
* Taking the root off the walked paths works if and only if the root is clean or comes to the present
  directory (`StrippedExactly`). With `--root-fs` set to `./bin/docker-fs`, `bin/docker-fs/` or
  `/` the snapshot records other paths than those that a check looks for; the default `./` and `bin/docker-fs` are fine.
* A snapshot of a tree with a newline or a double space in a path, or with a line that is too long, does not
  even match the tree it was taken of; nor does that of a tree with a file in two watched directories, such
  as `/app` and `/app/bin` (`UnchangedTreePasses`).
* A line of more than 65535 bytes ends the reader's loop like the end of the file: the records
  from there on are lost and the reader reports success (`LongLineTruncates`).
* Every check that is interrupted can panic on the closed errC, that of an unchanged tree too, unless there are
  neither files nor records (`PanicExactly`). One that ought to fail can report success with a count of
  zero, if the snapshot could be read and there is a file to hash (`WrongPassExactly`).
* A check that is not interrupted leaves a worker blocked for ever if too many hashes are still to come when it
  has found a difference, or could not read the snapshot (`EveryoneLeavesExactly` says how many are too many).
* A check that ought to pass can be interrupted so that its comparator is left blocked on doneC for ever
  (`SuccessIsLeftBehind`).
* With a worker count of zero the walker waits for ever, unless there is no file (`FinishesExactly`).
* The comment at line 74 of wrapper.go calls levels up to 512 valid. Above 256 the C function writes more than
  the 32 bytes that the hash buffer has: `WithHid(512)` makes it write 64 (`LevelFits`).

## Model

| member | source | states |
|---|---|---|
| ControllerInvariant.StepInv | snapshot-controller/controllers/snapshot_controller.go:65-184 | every step of the controller, of its users (edits of image, algorithm and hashes, deletion, new creation, with or without finalizers), of the cache and of a crash keeps the invariant that ties versions, saved versions, stored objects and uploaded statuses together |
| ControllerInvariant.ReachableInv | snapshot-controller/controllers/snapshot_controller.go:65-184 | the invariant holds in every state that any run reaches, with any interleaving, staleness and failures |
| ControllerInvariant.PutStatusInv | snapshot-controller/controllers/snapshot_controller.go:110-120 | a status write that is accepted was based on the latest version, so an uploaded status names a version that was decoded and saved |
| ControllerInvariant.SaveInv | snapshot-controller/controllers/snapshot_controller.go:147-168 | saving, whether it works, fails, or works and reports failure, keeps under each name the decoded contents of the last version saved under it and never goes back to an older version |
| ControllerInvariant.RemoveInv | snapshot-controller/controllers/snapshot_controller.go:127-136 | the finalizer is about to be taken off only when nothing is stored under the present name |
| ControllerRelease.StepHeld | snapshot-controller/controllers/snapshot_controller.go:95-144 | created with the finalizer, a Snapshot whose finalizer is off, or that is gone, has nothing stored under the name it came off with, nothing left to fetch that leads to an upload, and none under way; every step keeps that |
| ControllerRelease.PutFinalizersHeld | snapshot-controller/controllers/snapshot_controller.go:137-143 | taking the finalizer off establishes it, if the write is accepted |
| ControllerRelease.ReachableHeld | snapshot-controller/controllers/snapshot_controller.go:95-144 | it holds in every state that any run with guarded creations reaches |
| ControllerTheorems.GoneMeansRemoved | snapshot-controller/controllers/snapshot_controller.go:95-103 | when a Snapshot is gone from the API, or its finalizer is off, nothing is stored under the name it had then; anything else left under its names was there before it was created or is an earlier edit's, with another name |
| ControllerTheorems.NothingLeftUnlessStranded | snapshot-controller/controllers/snapshot_controller.go:127-144 | if no edit changes the name after an upload, nothing at all is left |
| ControllerTheorems.RemovedStaysRemoved | snapshot-controller/controllers/snapshot_controller.go:127-144 | unless it is created again, no later run, stale reconciles included, puts an object back |
| ControllerTheorems.NoStaleOverwrite | snapshot-controller/controllers/snapshot_controller.go:83-121 | the versions whose contents are saved never decrease; under each name is the content of the last version saved under it, which is no older than what any uploaded status was written for under that name; contents may be reverted |
| ControllerTheorems.SafeIsCoherent | snapshot-controller/controllers/snapshot_controller.go:105-121 | after safe edits, a status that claims the present contents are uploaded means the store holds exactly their decoding under the present name |
| ControllerTheorems.OneReconcileResolves | snapshot-controller/controllers/snapshot_controller.go:65-124 | in any state with a current cache and no call in progress, one undisturbed reconcile ends in deletion carried out, an upload reported, or undecodable contents reported, if and only if the client is not lost and the name can be built, or it was so before; a deleted object is then not stored, and a status that could be trusted still can |
| ControllerTheorems.ClientMayBeLost | snapshot-controller/controllers/snapshot_controller.go:192-214 | one failed first attempt leads to a reachable state without a storage client |
| ControllerTheorems.LostClientStaysLost | snapshot-controller/controllers/snapshot_controller.go:186-217 | from then on any run without a restart is the same as if the controller were not there |
| ControllerTheorems.ResolvedIsQuiet | snapshot-controller/controllers/snapshot_controller.go:105-124 | a reconcile of a resolved Snapshot writes nothing, neither to the API nor to the store |
| ControllerTheorems.NoUpdateLoop | snapshot-controller/controllers/snapshot_controller.go:65-124 | from any reachable state: however often the controller's own updates trigger it again, all rounds after the first write nothing, and the outcome is resolved exactly if the first could do its work or there was none |
| ControllerRuns.CoherentExactlyWhenSafe | snapshot-controller/controllers/snapshot_controller.go:106-121 | for any series of edits of image, algorithm and hashes that each change something: the status can be trusted in every run with these edits if and only if no edit that uploads looks like the last one while it has another name, or while it or a later edit of the same name decodes to something else |
| ControllerRuns.UnsafeRun | snapshot-controller/controllers/snapshot_controller.go:106-121 | for every unsafe series of edits, a run that ends with a status claiming an upload that the store contradicts |
| ControllerRuns.NoRevertIsSafe | snapshot-controller/controllers/snapshot_controller.go:106-107 | edits are safe when md5 tells the last hashes from the earlier ones and these did not come before other hashes or under another name |
| ControllerRuns.RemovedExactlyWhen | snapshot-controller/controllers/snapshot_controller.go:95-144 | for any series of edits: in every run with these edits a Snapshot that is gone has left nothing in the store, if and only if Snapshots are always created with the controller's finalizer and no edit has another name than an earlier one that uploads |
| ControllerRuns.StrandedRun | snapshot-controller/controllers/snapshot_controller.go:127-144 | for every other series of edits a run, with the finalizer on and only the controller taking it off, after which an object is left |
| ControllerRuns.UnguardedRun | snapshot-controller/controllers/snapshot_controller.go:95-103 | whatever the edits, if the finalizer may be missing, a run in which a stale save leaves an object behind |
| ControllerRuns.NoFinalizerLeavesObject | snapshot-controller/controllers/snapshot_controller.go:95-103 | created with any finalizers but the controller's, a deleted Snapshot leaves its object in the store |
| ControllerRuns.ForeignRemovalLeavesObject | snapshot-controller/controllers/snapshot_controller.go:137-143 | so does one whose finalizer someone else takes off first |
| ControllerRuns.ImageEditIsNotUploaded | snapshot-controller/controllers/snapshot_controller.go:106-107 | a change of image leaves the status claiming an upload, gives a reconcile nothing to do, and nothing is stored under the new name |
| ControllerRuns.SharedNameLosesObject | snapshot-controller/controllers/snapshot_controller.go:171-184 | of two Snapshots with one name, deleting the second leaves the first claiming an upload that is not stored, and its reconciles do nothing about it |
| ControllerRuns.TagsShareName | pkg/minio/minio.go:189-192 | Snapshots of two tags of an image whose registry has a port have one name |
| ControllerRuns.OneNameLeavesNothing | snapshot-controller/controllers/snapshot_controller.go:127-144 | as long as no edit changes the name, a deleted Snapshot leaves nothing behind |
| Neighbours.TrustedExactlyWhenApart | snapshot-controller/controllers/snapshot_controller.go:105-144 | of two Snapshots over one store, each with its own history, cache and reconciler: after safe edits both statuses can be trusted in every interleaved run, if and only if the two are never given the same name |
| Neighbours.ApartIsAlone | snapshot-controller/controllers/snapshot_controller.go:65-184 | apart, each of the two is in a state that it could have reached alone, so all that is shown of one holds of both |
| Neighbours.SharedNameMisleads | snapshot-controller/controllers/snapshot_controller.go:171-184 | for any two specs with one name a run in which deleting one Snapshot leaves the other's status claiming an upload that is not stored |
| Reconciler.Cluster.Reconcile | snapshot-controller/controllers/snapshot_controller.go:65-124 | for any interference and outcome at each remote call, the new state and the returned value are exactly those of the protocol played with the same interference and outcomes |
| Reconciler.CalmIsReconcile | snapshot-controller/controllers/snapshot_controller.go:65-124 | a call without interference or failures is the protocol's undisturbed reconcile, of which convergence is shown |
| Reconciler.PlayStaysReachable | snapshot-controller/controllers/snapshot_controller.go:65-124 | a call in a world that keeps to the assumptions leads from a reachable state to a reachable state, so all that is shown of these holds after it |
| Reconciler.PlayInTwo | snapshot-controller/controllers/snapshot_controller.go:76-103 | fetching the object and working on it are one call, unless the first part returns |
| Reconciler.FailedUploadIsRetried | snapshot-controller/controllers/snapshot_controller.go:107-114 | for every state, interference and outcome of an upload that failed, also one that worked but reported an error: the call returns no error, and there is a reason for another one if and only if the object was changed meanwhile, or the status write got through and the fetched status claimed an upload; otherwise the Snapshot stays without its upload |
| Reconciler.CallWithFailedUpload | snapshot-controller/controllers/snapshot_controller.go:65-114 | the same of a whole call, from the fetch on |
| Reconciler.FailedUploadStays | snapshot-controller/controllers/snapshot_controller.go:107-114 | a new Snapshot whose first upload reports an error once is not uploaded, the status write succeeds, the history does not change, and nothing calls for another attempt |
| CallResults.ReturnsExactly | snapshot-controller/controllers/snapshot_controller.go:65-124 | for every call, with any interference and outcome at each remote call: it returns an error if and only if the client is missing, the fetch fails, or there is work on an object with a name and the removal, the write of the finalizers, or the status write after a good save fails (a write works exactly if no version has come since the fetched one); it panics if and only if there is work on an object without a name; otherwise, also for an object that is gone or up to date, it returns none |
| CallResults.CalmSucceedsExactly | snapshot-controller/controllers/snapshot_controller.go:65-124 | with a current cache and nothing in between, a call returns no error if and only if the client is not lost and there is nothing to do or the name can be built |
| Triggers.NothingIsForgotten | snapshot-controller/controllers/snapshot_controller.go:65-124 | in every run of calls, moves of the world between and during them, failures and restarts: if no version is unseen and the last call did not ask to be repeated, the Snapshot is resolved, unless the client is lost, the name cannot be built, or the last call tried an upload that failed |
| Triggers.CallSettles | snapshot-controller/controllers/snapshot_controller.go:65-124 | the same of one call: if it returns no error and leaves no newer version than the one it fetched |
| Triggers.ComesToRest | snapshot-controller/controllers/snapshot_controller.go:65-124 | from wherever any run has led, two undisturbed calls on a current cache leave nothing that calls for another one if and only if the client is not lost and there was nothing to do or the name can be built; the Snapshot is then resolved |
| Reconciler.Cluster.MinIOStorage | snapshot-controller/controllers/snapshot_controller.go:192-217 | the client is set up at the first call only; the call tells whether it is there |
| Reconciler.Cluster.UploadSnapshot | snapshot-controller/controllers/snapshot_controller.go:147-168 | the name is built before decoding (and may panic), nothing is saved for undecodable contents, otherwise one save |
| Reconciler.Cluster.RemoveSnapshot | snapshot-controller/controllers/snapshot_controller.go:171-184 | removes exactly the named object, or panics before touching the store |
| Reconciler.Cluster.DeleteSnapshot | snapshot-controller/controllers/snapshot_controller.go:127-144 | plays the removal and then, only if that reported success, the update without the finalizer; an error of either is returned |
| Reconciler.Cluster.UpdateStatus | snapshot-controller/controllers/snapshot_controller.go:66-74 | one status write on the version fetched; after a failed upload its error is swallowed, otherwise returned |
| Reconciler.Cluster.Publish | snapshot-controller/controllers/snapshot_controller.go:105-121 | plays the save and then the status write: the md5 and true, or the old hash and false; an error is returned only when a successful save could not be reported |
| Pipeline.StepInv | internal/worker/workers.go:19-58 | every step of walker, workers, closer, consumer and canceller keeps the channel rules and loses or invents no file and no hash |
| Pipeline.PoolIsSafe | internal/worker/workers.go:19-58 | in every run: hashC never overflows, is closed only when all workers are gone and never sent to afterwards; what is delivered is a part of the hashes of the names handed over, and all of it is accounted for unless cancelled |
| Pipeline.StepConserved | internal/worker/workers.go:40-56 | hashes of the names handed over are the bag of delivered, queued, carried and (after a cancellation) dropped ones |
| Pipeline.StepWalked | internal/walker/filewalker.go:15-34 | the walker hands over regular files only, in order; an error costs the rest of one root only; a cancellation may cost more |
| Pipeline.RootFilesInOrder | internal/walker/filewalker.go:16-31 | of what the walk of a root calls back with, the regular files and nothing else are handed over, in order, up to an error |
| Pipeline.ErrorEndsItsRoot | internal/walker/filewalker.go:15-34 | an error ends the walk of its root and leaves the other roots as they are: of that root comes what was before it |
| Pipeline.StepChannels | internal/worker/workers.go:20-32 | the counter is the number of workers that have not returned, and the close waits for it |
| Pipeline.CanMove | internal/walker/filewalker.go:13-35 | with at least one worker and an empty queue, someone can always move until everyone is done, cancelled or not |
| Pipeline.StepRank | internal/worker/workers.go:37-58 | every step takes the pipeline nearer to its end |
| Pipeline.FinishedDelivers | internal/worker/workers.go:19-35 | once hashC is closed and drained, what came out is the bag of hashes of all regular files, uncancelled, and a part of it otherwise |
| HashDir.StuckMeansFinished | internal/integritymonitor/snapshot.go:50-66 | under every schedule, whenever the timeout strikes, a run that cannot go on has ended everywhere: walker, workers, closer, consumer; and no run is longer than a bound known at the start |
| HashDir.FinishesExactly | internal/worker/workers.go:19-35 | every run that is not cancelled and can go on no further has ended everywhere, if and only if there is at least one worker or no file to hash |
| Cancellation.CancelStops | internal/worker/workers.go:40-56 | from a cancellation on, in every run: at most one more name for each worker is handed over, and nothing is delivered but what had been hashed by then |
| Cancellation.WaitingWorkersStay | internal/worker/workers.go:40-45 | a worker looks at the context only when it has a name: as long as the names are open, exactly as many workers have left as files were dropped |
| Cancellation.LaterRootGoesOn | internal/walker/filewalker.go:15-34 | a cancellation ends the walk of a root and not of the others: the first file of any root may still be handed over, after none before it |
| HashDir.HashDir | internal/integritymonitor/snapshot.go:50-66 | terminates under any scheduler; returns each hashable file once with the root stripped off, or some of them after a timeout |
| HashDir.CalculateAndWriteHashes | internal/integritymonitor/snapshot.go:20-47 | fails, and leaves no file, exactly if the file cannot be created, a directory is missing, or the text does not fit; otherwise the file has a line for every hashable file of every directory, each once, or for a part of them if a scan timed out |
| Monitor.GenuineMeansDifferent | internal/integritymonitor/integritymonitor.go:128-147 | an error that names a witness is only possible when the tree differs from the snapshot |
| MonitorTheorems.CompareKeeps | internal/integritymonitor/integritymonitor.go:128-141 | comparing one more hash strikes exactly that entry off the map, or finds a genuine mismatch or new file |
| MonitorTheorems.DoKeeps | internal/integritymonitor/integritymonitor.go:38-151 | every step of an undisturbed check keeps: seen and left together are the expected entries, and a pending or delivered verdict is justified |
| MonitorTheorems.VerdictIsExact | internal/integritymonitor/integritymonitor.go:58-76 | under every schedule the check passes if and only if the snapshot could be read and the files seen are its entries, each exactly once; an error names a difference that is there; the count is that of the records |
| MonitorTheorems.ChannelsAreSafe | internal/integritymonitor/integritymonitor.go:42-76 | nothing is sent on a closed channel, the comparator sends at most once, and the verdict is that send, never the zero value of the closed doneC |
| MonitorTheorems.CheckReturns | internal/integritymonitor/integritymonitor.go:64-76 | runs are bounded, and a run that is not interrupted and cannot go on has its verdict |
| MonitorTheorems.CheckIntegrity | internal/integritymonitor/integritymonitor.go:38-76 | under any scheduler the call terminates, and if not interrupted with a justified and exact verdict |
| MonitorRuns.WrongPassExactly | internal/integritymonitor/integritymonitor.go:64-126 | of the checks that ought to fail, with any files, directories and number of workers, an interruption can make exactly those pass whose snapshot could be read and which have a file to hash |
| MonitorRuns.InterruptedCheckMayPass | internal/integritymonitor/integritymonitor.go:64-71 | for every check whose snapshot could be read and which has a file to hash, whatever they are, an interrupted run reports success with a count of zero |
| MonitorRuns.PanicExactly | internal/integritymonitor/integritymonitor.go:42-45 | some run of a check sends on the closed errC if and only if the snapshot cannot be read, or holds a record, or the tree has a file to hash |
| MonitorRuns.InterruptedCheckMayPanic | internal/integritymonitor/integritymonitor.go:120-147 | for every such check a run that panics: an expected file is missed, a file is not expected, or the setup has failed, and CheckIntegrity has left |
| MonitorLeftovers.EveryoneLeavesExactly | internal/worker/workers.go:40-56 | for every check, tree and number of workers: after every run that is not interrupted everyone is out in the end, if and only if there are not too many hashes: with an unreadable snapshot, more hashes than workers; otherwise more than workers plus one, and an unexpected one that is not among the last two of the walk, or more than workers plus two, and the same one twice before the last two |
| MonitorLeftovers.FailedCheckLeavesWorkers | internal/worker/workers.go:52-55 | for every check with too many hashes, an uninterrupted run that ends with a worker blocked on hashC and nothing able to move |
| MonitorLeftovers.OutOrBlocked | internal/worker/workers.go:19-58 | a check that is over has returned, and everyone is out or a worker is blocked on the full channel |
| MonitorLeftovers.FewFilesLeaveNobody | internal/worker/workers.go:20-55 | with no more hashable files than workers, everyone is out in the end, whatever the verdict |
| MonitorEnds.EveryCheckEnds | internal/integritymonitor/integritymonitor.go:38-151 | whenever a check is interrupted, if at all: once nothing more happens, CheckIntegrity has returned, the comparator has ended or, after an interruption, offers its success on doneC for ever, and everyone else is out or a worker is blocked on hashC |
| MonitorEnds.SuccessIsLeftBehind | internal/integritymonitor/integritymonitor.go:64-68 | for every check that ought to pass, an interrupted run that ends with the comparator blocked on doneC |
| MonitorEnds.InterruptionMayBeOverlooked | internal/integritymonitor/integritymonitor.go:65-75 | a check interrupted when the comparator is about to send may still give the verdict that it would have given |
| MonitorRuns.ErrorIsNotDetermined | internal/integritymonitor/integritymonitor.go:143-147 | the verdict is determined, the reported difference is not: of two deleted files either may be named |
| SnapshotText.WriteAsPlainText | internal/integritymonitor/snapshot.go:68-78 | the file is the records' lines, in order, and the call succeeds, if and only if there is room; otherwise it is as much of them as there is room for |
| SnapshotText.PrintOne | internal/integritymonitor/snapshot.go:68-71 | a line is the hash, two spaces, the path and a newline |
| SnapshotText.Get | internal/data/checksums_reader.go:20-34 | the loop returns the records of all scanned lines in order, or the first error |
| SnapshotText.ParsedIsWellFormed | internal/data/checksums_reader.go:42-50 | what is read from a line is clean and prints no longer than the line was |
| SnapshotText.ParseRecordFields | internal/data/checksums_reader.go:42-50 | of any line that is accepted, the hash is what comes before the first double space, the path what comes after it up to the next one, both trimmed; the rest is ignored |
| SnapshotText.FirstBadLine | internal/data/checksums_reader.go:25-45 | the error is that of the first bad line, and says whether it was empty or had no double space |
| SnapshotText.RoundTrip | internal/data/checksums_reader.go:20-51 | a written file reads back as exactly its records if and only if each field is trimmed and free of newlines and double spaces and each line fits the scanner |
| SnapshotText.NormalForm | internal/data/checksums_reader.go:20-51 | reading any text fails if and only if some scanned line is empty or has no double space; otherwise printing and reading again gives the same records |
| SnapshotText.LongLineTruncates | internal/data/checksums_reader.go:25-33 | a line over the limit makes the reader return the records before it, with success |
| GoStrings.ScanFirstLine | internal/data/checksums_reader.go:21-25 | the scanner yields a first line without its newline and carriage return, or stops at it if it has more than 65535 bytes |
| GoStrings.ScanLastLine | internal/data/checksums_reader.go:21-25 | the last line needs no newline; an empty rest is not a line; the limit is the same |
| GoStrings.DropCRIs | internal/data/checksums_reader.go:21-25 | one carriage return goes from the end of a line, if there is one |
| GoStrings.Utf8LenNext | internal/data/checksums_reader.go:21-25 | a character counts as one to four bytes, by its number |
| GoStrings.TrimSlice | internal/data/checksums_reader.go:47-50 | trimming keeps one slice; everything outside it was to be cut, and neither of its ends is |
| GoStrings.SpacesAre | internal/data/checksums_reader.go:47-50 | the characters that are space, by number |
| GoStrings.TrimPrefixIs | internal/integritymonitor/integritymonitor.go:128 | the prefix goes if it is there, once, and nothing else does |
| ObjectKey.CleanFixes | pkg/minio/minio.go:189-192 | path cleaning always ends in a clean path and leaves alone exactly the clean ones |
| Walk.Staying | pkg/minio/minio.go:189-192 | a trailing slash or a `.` changes nothing |
| Walk.DownAndUp | pkg/minio/minio.go:189-192 | a name followed by `..` changes nothing |
| Walk.UpFromTheTop | pkg/minio/minio.go:189-192 | `..` at the top is dropped, at the start of a relative path it stays |
| ObjectKey.NamesAgree | pkg/minio/minio.go:189-192 | writer and reader name the same object if and only if the namespace is not empty and namespace/name/tag is a clean path; one panics exactly when the other errs, for images without a colon |
| ObjectKey.NameIs | pkg/minio/minio.go:189-192 | for an image with a colon, both names are made of namespace, what is before the first colon, what is between it and the next, and the algorithm in lower case |
| ObjectKey.JoinedName | pkg/minio/minio.go:191 | joining a namespace, a name and a tag that make a clean path puts slashes between them; an empty namespace is left out |
| ObjectKey.ImageIsLookedUp | internal/utils/process/checksumfile.go:11-19 | the image is that of the process; a process that is not configured is an error |
| GoStrings.LowerIs | pkg/minio/minio.go:191 | lower-casing keeps the length, leaves no letter from A to Z, and moves each of these, and nothing else, by 32 |
| GoStrings.CaseExactly | internal/utils/process/checksumfile.go:19 | two texts are the same in lower case if and only if they agree letter by letter up to the case of A to Z |
| ObjectKey.NameIsInjective | internal/utils/process/checksumfile.go:11-20 | over slash-free namespaces, single-colon images with slash-free tags and dot-free algorithms, names are equal if and only if namespace and image are and the algorithms agree letter by letter up to the case of A to Z |
| ObjectKey.RegistryPortLosesTag | pkg/minio/minio.go:189-192 | with a port in the registry, all tags of an image have one name, for writer and reader |
| MonitoringOptions.ParseMonitoringOpts | internal/integritymonitor/integritymonitor.go:182-212 | the empty string is an error; otherwise the loop, stopping at the first bad token, computes the map specified by `ParseText` of the unquoted or, failing that, the given text |
| MonitoringOptions.TrimEach | internal/integritymonitor/integritymonitor.go:206-208 | each path is trimmed in its place, none is lost or moved |
| MonitoringOptions.ParsingIsTotal | internal/integritymonitor/integritymonitor.go:191-211 | parsing succeeds if and only if every token has an `=` followed by a non-empty second component, and then the last token with a name decides what it is mapped to |
| MonitoringOptions.TokenSucceeds | internal/integritymonitor/integritymonitor.go:197-204 | one token is accepted if and only if its first `=` is followed by a character other than `=` |
| MonitoringOptions.TokenErrors | internal/integritymonitor/integritymonitor.go:197-204 | which of the two errors a bad token is |
| MonitoringOptions.FirstErrorCounts | internal/integritymonitor/integritymonitor.go:196-204 | the first bad token makes the error |
| MonitoringOptions.ParsesTo | internal/integritymonitor/integritymonitor.go:197-209 | a token with any paths, any run of commas before and after them, and anything from a second `=` on, is mapped to just these paths, each trimmed in its place |
| MonitoringOptions.CommasAlone | internal/integritymonitor/integritymonitor.go:202-209 | a value of nothing but commas is one empty path |
| MonitoringOptions.EveryValue | internal/integritymonitor/integritymonitor.go:205 | every other value is such a list of paths with commas around it |
| MonitoringOptions.RoundTrip | internal/integritymonitor/integritymonitor.go:182-212 | printing a map in any order of its names and parsing the text gives the map back |
| MonitoringOptions.DressedRoundTrip | internal/integritymonitor/integritymonitor.go:182-212 | so does the text with any runs of commas before and after the paths of each name |
| Bee2.Bee2.constructor | internal/ffi/bee2/bee2.go:37-52 | a fresh object, for any level and size, holds the started state of a zero buffer |
| Bee2.Bee2.BashHashStart | internal/ffi/bee2/wrapper.go:105-111 | the started state, and nothing else, is copied back |
| Bee2.Bee2.BashHashStepH | internal/ffi/bee2/wrapper.go:113-122 | only the first n bytes of the block buffer are absorbed, so never a stale one |
| Bee2.Bee2.BashHashStepG | internal/ffi/bee2/wrapper.go:124-133 | the hash buffer becomes the digest padded with zeros, whatever it held, and the state stays, if level and size fit the buffer; otherwise the call says that they do not |
| Bee2.LevelFits | internal/ffi/bee2/wrapper.go:74-81 | of the levels that the comment allows, exactly those up to 256 fit the buffer; 512 writes twice its size |
| Bee2.Bee2.Write | internal/ffi/bee2/bee2.go:67-82 | absorbs the message's consecutive blocks in order and returns its length |
| Bee2.Bee2.Sum | internal/ffi/bee2/bee2.go:85-93 | appends the digest of the state and leaves the state alone, so writing can go on and asking again gives the same; nothing where the digest does not fit |
| Bee2.Bee2.Reset | internal/ffi/bee2/bee2.go:96-104 | the state of a fresh object, whatever happened before |
| Bee2.BlocksPartition | internal/ffi/bee2/bee2.go:68-79 | the blocks put together are the message; all have 4096 bytes but the last, which has no more and is not empty |
| Bee2.IncrementalIsOneShot | internal/ffi/bee2/bee2.go:67-93 | the block loop computes the digest of the message absorbed at once |
| Bee2.DefaultDigest | internal/ffi/bee2/bee2.go:37-52 | the default object starts a zero state of 4096 bytes at level 128 and puts out 32 bytes |
| Bee2.AnyDivision | internal/ffi/bee2/bee2.go:67-82 | any division of a message into Writes leaves the state of the whole message absorbed at once |
| Walk.StrippedExactly | internal/walker/filewalker.go:16-26 | for every root, every directory that stays inside it, with or without a leading slash, and everything below that: taking the root off the reported path leaves the relative path if and only if the root is clean and not "/", or comes to the present directory |
| Walk.ReportedIs | internal/walker/filewalker.go:16-26 | a child's path is the root's cleaned segments and the names that lead to it |
| Walk.StrippedItself | internal/integritymonitor/snapshot.go:62 | a watched directory that is itself a file is recorded as it was configured |
| Walk.ProcRootIsGood | internal/integritymonitor/integritymonitor.go:30-36 | the root of any process is one that is taken off cleanly |
| Walk.ProcRootIsOwn | internal/integritymonitor/integritymonitor.go:30-36 | two processes have the same root if and only if they are the same |
| Walk.DecimalReadsBack | internal/integritymonitor/integritymonitor.go:35 | the digits of a process number read as that number, without a leading zero |
| Hasher.Hasher.HashData | pkg/hasher/hasher.go:59-67 | for bee2 and for any standard hash, the result depends on the data alone, not on what the hasher was used for before |
| Hasher.Hasher.HashFile | pkg/hasher/hasher.go:44-55 | bee2 hashes a file in its own way, the others read it and hash the data; it fails if and only if the file cannot be opened or read |
| Hasher.HashSeries | internal/worker/workers.go:39-56 | one hasher over a series of files returns for each what a new one would, for any kind of hash, and skips those that cannot be read |
| Hasher.HashIsOfContent | pkg/hasher/hasher.go:44-67 | the hash of a file is that of its contents: how it was read and what the stack held play no part |
| Hasher.Bee2HashFile | internal/ffi/bee2/wrapper.go:29-64 | fails if and only if the file cannot be opened or read; otherwise the digest of the pieces read, in order |
| Hasher.BothPathsAgree | internal/ffi/bee2/wrapper.go:45-62 | however fread divides the file and whatever the stack held, the C path and the Go path give the same digest |
| Hasher.HexIsInjective | pkg/hasher/hasher.go:66 | two digests print the same if and only if they are the same |
| Hasher.HexReadsBack | pkg/hasher/hasher.go:66 | two digits from 0 to f for each byte, the higher one first: 16 times the first and the second make the byte |
| EndToEnd.TakeSnapshot | internal/integritymonitor/snapshot.go:20-78 | what the tool writes, if no scan timed out, is a snapshot of the tree, with which the following start |
| EndToEnd.SnapshotReadsBack | internal/integritymonitor/snapshot.go:45-78 | a snapshot of a tree, in whatever order its lines were written and with overlapping directories or not, is read back as just the tree's paths and hashes, each once |
| EndToEnd.WalkedRecords | internal/integritymonitor/snapshot.go:54-64 | walking a tree below any good root, hashing what is found and taking the root off gives the tree's records, in order |
| EndToEnd.ObservedIsRecords | internal/integritymonitor/integritymonitor.go:128 | below the root of any process, an undisturbed check observes the records that a snapshot holds |
| EndToEnd.EntriesOfRecords | internal/integritymonitor/integritymonitor.go:115-119 | records that have one hash for each path make a map that holds each of them once |
| EndToEnd.LastRecordCounts | internal/integritymonitor/integritymonitor.go:115-119 | of several records of one path the last one counts |
| EndToEnd.LoadingFailsExactly | internal/integritymonitor/integritymonitor.go:96-113 | under any schedule, a check that is not interrupted is rejected for its set-up if and only if there is no name for the object, no object of that name, or a line that is empty or has no double space, and it says which |
| EndToEnd.SameBagExactly | internal/integritymonitor/integritymonitor.go:121-147 | the observed bag is that of the records, each once, if and only if hashes are equal at every path and no file is watched twice |
| EndToEnd.RepeatsExactly | internal/integritymonitor/integritymonitor.go:136-141 | a hash is observed twice if and only if a file that can be hashed is walked twice |
| EndToEnd.StoredIsFound | internal/integritymonitor/integritymonitor.go:96-113 | a monitor configured for the same image and algorithm finds the text that the controller stored |
| EndToEnd.UnchangedTreePasses | internal/integritymonitor/integritymonitor.go:38-151 | a check of the very tree that the snapshot was taken of passes, under any schedule, if and only if all its records are fit for the format and no file is watched twice |
| EndToEnd.SnapshotThenCheck | internal/integritymonitor/integritymonitor.go:38-151 | snapshot one tree, check another: under any schedule the check passes if and only if every path has the same hash in both and no file of the second is watched twice |
| EndToEnd.PublishedThenChecked | internal/integritymonitor/integritymonitor.go:38-151 | the same with the controller in between, in any reachable state whose status claims the upload, after any safe edits |
| EndToEnd.EveryChangeIsDetected | internal/integritymonitor/integritymonitor.go:38-151 | with the hash that HashFile returns, the files being read in whatever pieces at either time, and no collisions among the files of the two trees, the check passes if and only if the readable files and their contents are the same and none is watched twice |

## Left out

- Goroutines, channels and the WaitGroup are values of a transition system with one step per channel operation, not Dafny objects: `Pipeline` and `Monitor` do not capture Go's memory model. A close of the names and the return of the walker are one step, as are a worker's return and its `wg.Done`.
- MonitorTheorems.VerdictIsExact: speaks of checks that are not interrupted and have at least one worker; for interrupted ones it is false, and `MonitorRuns` says when. Which interrupted checks leave workers behind is left out (`EveryCheckEnds` says what can be left).
- HashDir.CalculateAndWriteHashes: takes the listing of each directory, whether the file can be created and how much fits in it as arguments; a scan that timed out is not reported by the code either.
- SnapshotText.Get: the scanner is the sequence of lines it yields; read errors other than an over-long line are left out, as the reader never sees them.
- MonitoringOptions.ParseMonitoringOpts: what strconv.Unquote makes of the input is a parameter; the literal syntax of Go is not modelled. `RoundTrip` speaks of the text after unquoting.
- ObjectKey.NameIsInjective: lower-casing is ASCII only; Unicode case mapping is left out, and so are byte sequences that are not UTF-8, on which Go's string functions work too.
- EndToEnd.PublishedThenChecked: watched directories that lead out of the root by way of `..` are left out.
- Reconciler.Cluster.Reconcile: a request in flight when the process crashes is the protocol's `Crash` label, not part of this method; log output is left out.
- Bee2.Bee2.Write: the C functions are pure functions of the buffers they are given; their memory safety is left out.
- Bee2.Bee2.BashHashStepG: of a digest that does not fit the buffer, nothing is said but that it does not.
- The MinIO and Kubernetes clients, their retries and the bucket: the store is a map from names to contents, an API object a history of versions. The second `once` inside `NewStorage` never runs apart from the first.
- A request that takes effect after its error was reported. It could put an object back behind the controller's back, and nothing in the code guards against it.
- `GetPID` and `/proc`: the process is fixed during a check, its root is a parameter.
- `filepath.WalkDir`'s reading of directories: its result is a sequence of entries with an optional error per root.
- `RegisterAlg` and `newHasherInstance`: a table lookup with no further property; the digests other than bee2 are any function of what was written.
- The digest algorithms, md5 and base64 themselves.
- Wall-clock timeouts and tickers: a cancellation or a failure that may come at any moment.
- Alerts, syslog and Splunk senders, the pod restart, logging, configuration flags, the health file.
