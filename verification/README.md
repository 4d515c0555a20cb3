# quickctf: a Dafny model of its protocols

quickctf is a capture-the-flag platform made of five services. This project models the parts whose correctness
depends on more than one call at a time, and proves what they guarantee.

- **The OCI registry** (`ctf-registry`). Resumable uploads with their range arithmetic, two blob backends at the
  level of single object-store or system calls, the request handlers over blobs, associations, tags and referrers,
  and the two metadata stores behind them.
- **Instance orchestration** (`ctf-server`, `ctf-manager`, `ctf-runner`). Flag scoring, the server's table of
  users' instances, the manager's table and its round-robin choice of runners, and the runner's port bitmap.
- **The build pipeline** (`ctf-server`, `ctf-builder`, Redis). The job queue, the status register of each job, the
  trimmed list of jobs, the worker, and the log stream.

## How the model is built

Where requests interleave, a module is a state machine: `Step(s, a)` takes one action, and an action is a request
arriving or *one call* of a request in flight to a store, a runner, Docker or Redis. `Exec(s, acts)` runs any list
of actions; an action that cannot happen changes nothing, so a statement about `Exec` for all `acts` covers every
interleaving. How a call ends is part of the action (`Choice`): it succeeds (`Ok`), fails without effect (`Fail`),
takes effect but reports a failure (`FailApplied`), or stops after some bytes (`Part(n)`).

Objects that the source updates in place are classes (`Storage`, `Disk`, `Store`, `Pool`, `Table`, `Runner`,
`Usecase`, `Redis`), and loops that update variables are methods with loops. Each method is tied by its contract to
the functions the machine is made of, so the theorems about all runs speak about the same code.

Fields described as *history* record what happened and are never read by a step's decisions.

How a request is answered is told from its own calls alone: `Turns(s, acts, p)` lists the calls request p makes along a
run, each with the state it met, how it ended and the state it left, and the `...Exactly` theorems say what the reply and
the effects are in terms of these, whatever other requests do in between.

Hashing, digest syntax and JSON decoding are function parameters: `Hashing` has the digest computed for bytes that
are saved, any function of them, and whatever further digests verify them (those of other algorithms). Injectivity,
that no digest fits two different byte strings, is assumed only where a statement needs it. Fresh identifiers are
chosen by the actions, and an action that would reuse one changes nothing. Go's 64-bit arithmetic is written out
(`Common.Wrap64`).

| file | contents |
|---|---|
| `Common`, `ByteOrder` | choices, digests, 64-bit integers; the byte order of strings and sorting |
| `ContentRange`, `UploadSession`, `UploadAnswers` | the range header, the resumable upload protocol, and how its requests are answered |
| `StorageApi`, `S3Storage`, `FsStorage`, `Storage` | the two blob backends and what both promise |
| `S3Sessions` | what the object of an upload session in S3 holds, over every schedule of uploads |
| `FsRaces`, `FsSessions`, `FsRuns` | what the filesystem's blobs hold: over every run, with one operation per session, and on telling runs |
| `MetaStore`, `BoltStore`, `DynamoStore`, `ReferrerRaces` | metadata as nested maps, the two stores that refine it, overlapping updates of a referrer list |
| `Registry`, `RegistryOnDisk`, `RegistryAnswers` | the request handlers over storage and metadata; what a GET answers on disk; how each request is answered |
| `Scheduler`, `Manager`, `ManagerAnswers`, `Expiry` | the instance manager and how it answers |
| `RunnerPorts`, `PortRaces` | the runner, and its starts overlapping |
| `Scoring`, `ClientInstances`, `ClientAnswers` | the server's challenge use cases and how they are answered |
| `Tiers`, `TierRuns` | the server's table over the manager's; a start and a stop from end to end |
| `BuildPipeline`, `BuildAnswers`, `BuildClient`, `BuildWorker`, `BuildStream` | the build pipeline |

## Where the code departs from the obvious claim

These are proved, either as the exact condition under which a property holds or as a run that breaks it.

- A chunk uploaded to S3 keeps the earlier ones exactly when both reads of them come back whole and no other chunk is
  put between its look and its own put (`S3Sessions.ObjectExactly`): every error of a head request reads as "not
  there" (`isErrorType` is always true), and the read's errors are dropped.
- An S3 commit does not look at the uploaded bytes when the digest already exists
  (`S3Storage.Storage.CommitBlob`); the object stored under the digest is still right
  (`S3Storage.ContentAddressed`).
- On the filesystem a blob can be wrong: an append that races a commit is published under a digest it does not have
  (`FsRuns.RacingAppendPublished`), and a save that fails part-way leaves a broken blob that later saves of the same
  bytes accept (`FsRuns.FailedSaveStays`). When a blob is right is exact for every run (`FsRaces.SavedExactly`,
  `FsRaces.RenamedExactly`); with one operation per session in flight only an unfinished or failed save breaks one
  (`FsSessions.ContentAddressed`). A manifest answered 201 can therefore be answered
  500 (`RegistryOnDisk.FailedPutStays`; `RegistryOnDisk.GetByTag` says exactly when).
- The bytes of a PUT that ends an upload are appended without a range check (`UploadSession.PutBodyExactly`).
- The Bolt tag list returns whole keys, so a client that passes a plain tag back as `last` starts over
  (`BoltStore.PlainLastRestarts`). A last page that is not full is padded with empty strings as far as the spare
  capacity of the slice goes, and out of range beyond it (`BoltStore.OutcomeExactly`, `BoltStore.PagingExactly`). The
  Dynamo list starts over after the final tag (`DynamoStore.PagingComplete`).
- Overlapping referrer updates in Dynamo lose referrers; which ones, and exactly when, is in
  `ReferrerRaces.ListExactly` and `ReferrerRaces.AllKeptExactly`.
- A record whose container is gone stays in the manager's table, unless a destroy was about to delete it
  (`Manager.StuckRecordExactly`).
- `Cleanup` waits for its own lock as soon as it finds an instance (`Manager.CleanupBlocks`).
- A runner loses the port of a container that could not be created or was not running when it was removed
  (`RunnerPorts.LostForGood`), and gives a port out twice when a removal fails (`RunnerPorts.PortGivenTwice`)
  or when two starts look at it before either marks it (`PortRaces.SharedExactly`).
- Restarting a stopped instance drops the id of the instance it started (`ClientInstances.RestartLoses`). A start
  that cannot read the table, or finds an unknown status, adds a second row (`ClientInstances.SecondRowExactly`).
- An instance whose record the manager could not save can never be stopped (`Tiers.UnsavedNotStopped`); asking for its
  status removes the server's row and leaves the container (`Tiers.UnsavedForgotten`).
- A job is queued before it is marked pending, so a finished build can read pending for ever
  (`BuildPipeline.SuccessForgotten`, `BuildPipeline.StatusSettled`).
- The worker's completion messages decode to an unspecified status (`BuildStream.WorkerMessageUnspecified`), and
  a line of a build's own output can end the log stream with a wrong one (`BuildStream.EndTellsExactly`).

## Model

| member | source | states |
|---|---|---|
| ContentRange.RangeRoundTrip | ctf-registry/handler/blobupload.go:230-245 | reading inverts rendering `%d-%d` for every start >= 0 and every int64 end, "0--1" included |
| ContentRange.StartNonNegative | ctf-registry/handler/blobupload.go:230-238 | no header text yields a negative start |
| ContentRange.ParsesExactly | ctf-registry/handler/blobupload.go:230-245 | which texts are read as which int64: digits after at most one sign, with a value that fits |
| ContentRange.GuardExact | ctf-registry/handler/blobupload.go:146-172 | an accepted header starts at the session's size and its mathematical length is the announced one, except for the one wrap-around at the smallest int64 |
| ContentRange.GuardOnChunk | ctf-registry/handler/blobupload.go:146-172 | a chunk's header is accepted exactly when it is not empty and starts at the session's size; otherwise 416 |
| ContentRange.GuardVerdicts | ctf-registry/handler/blobupload.go:146-172 | without both headers nothing is checked; 400 exactly for unreadable headers; a range of the announced length that starts at the size is accepted |
| UploadSession.CheckIsGuard | ctf-registry/handler/blobupload.go:146-172 | the protocol's range check is the guard on the header texts |
| UploadSession.SessionIsPrefix | ctf-registry/handler/blobupload.go:142-211 | one request in flight per session, a PUT's body sent from the reported size: after any retries, reorderings, refusals and short writes every session file is a prefix of its document |
| UploadSession.WriterAtFileEnd | ctf-registry/storage/filesystem/filesystem.go:53-75 | an accepted chunk is written exactly at the file's end |
| UploadSession.CheckOnlyReplies | ctf-registry/handler/blobupload.go:153-171 | a range check changes no file and no blob |
| UploadSession.RefusalChangesNothing | ctf-registry/handler/blobupload.go:153-171 | over any run, no step of a request that ends in 416 changed a file or a blob |
| UploadSession.CommitExact | ctf-registry/handler/blobupload.go:211-228 | injective digest: a PUT whose body is in the file is verified exactly when the whole document arrived, otherwise 400 and nothing changes; verified, it answers 201 if the blob was there, even when the session file cannot be removed, else exactly when the rename succeeds; a rename that took effect publishes the document |
| UploadSession.PutBodyExactly | ctf-registry/handler/blobupload.go:206-209 | a PUT's body goes to the end of the file unchecked; it leaves a prefix of the document exactly when its bytes are the next ones |
| UploadSession.PutFinishes | ctf-registry/handler/blobupload.go:191-228 | however a session was interrupted, one PUT with the missing bytes completes and publishes it |
| UploadSession.ResumeCompletes | ctf-registry/handler/blobupload.go:27-39 | however a session was interrupted, one PATCH from the reported size completes it |
| UploadSession.OverlapCorrupts | ctf-registry/handler/blobupload.go:165-174 | two overlapping requests of a session both pass the check and corrupt the file |
| UploadAnswers.PatchExactly | ctf-registry/handler/blobupload.go:142-189 | over any run: 202 exactly when the range was not empty and started at the size, and all its bytes were appended since; 416 exactly when not, with nothing changed; 500 exactly when the last step failed |
| UploadAnswers.PutExactly | ctf-registry/handler/blobupload.go:191-228 | over any run: 201 means that the body was written, the file then fitted the digest and the blob is there; 400 that it did not fit; 500 that a step failed or the file was gone |
| S3Storage.ContentAddressed | ctf-registry/storage/s3/s3.go:121-249 | over every interleaving of single object-store calls: every object hashes to its name, what was reported stored stays, and with an injective digest no stored bytes change |
| S3Storage.ChunksKept | ctf-registry/storage/s3/s3.go:129-146 | earlier chunks survive exactly when there are none or both reads of them are complete |
| S3Storage.Storage.UploadBlob | ctf-registry/storage/s3/s3.go:121-159 | exactly which bytes it stores, when it succeeds, and that the size reported is the object's; it is the machine's calls in order |
| S3Storage.Storage.CommitBlob | ctf-registry/storage/s3/s3.go:161-220 | its outcome and what it leaves, exactly: a mismatch is reported when it read the upload and found no blob of that name; a blob it wrote hashes to its name |
| S3Storage.Storage.SaveBlob | ctf-registry/storage/s3/s3.go:222-249 | its outcome and what it leaves, exactly: a reported save left an object of that name, the bytes unless one was found |
| S3Sessions.ObjectExactly | ctf-registry/storage/s3/s3.go:121-159 | over every schedule of uploads to a session the object holds what the last put's call read when it looked, and its chunk; it holds all chunks in put order exactly when nothing was lost on the way, which for non-empty chunks means that each put's call read everything and no other put fell between its look and it |
| S3Sessions.SerialExactly | ctf-registry/storage/s3/s3.go:121-159 | one upload at a time: each put builds on the object just before it, and all chunks, none empty, are there exactly when every read was complete |
| S3Sessions.SizeExactly | ctf-registry/storage/s3/s3.go:156-158 | over every schedule, a call that reports a size made a put of its chunk that left an object of exactly that many bytes |
| S3Sessions.AloneAppends | ctf-registry/storage/s3/s3.go:121-159 | an upload that runs alone and meets no failure appends its chunk and reports the object's size |
| FsStorage.StepPresence | ctf-registry/storage/filesystem/filesystem.go:53-126 | no operation takes a blob's name away, and one that reports success leaves its blob |
| FsStorage.Disk.UploadBlob | ctf-registry/storage/filesystem/filesystem.go:53-75 | its outcome, the size reported, and how many bytes of the body the session file gains, exactly; no other file changes |
| FsStorage.Disk.CommitBlob | ctf-registry/storage/filesystem/filesystem.go:77-111 | its outcome and the directory it leaves, exactly: a mismatch is reported when the bytes read do not hash to the digest; no bytes change |
| FsStorage.Disk.SaveBlob | ctf-registry/storage/filesystem/filesystem.go:113-126 | its outcome, and how many of the bytes the blob's file then holds, exactly; no other file changes |
| FsRaces.SavedExactly | ctf-registry/storage/filesystem/filesystem.go:113-126 | over every run: a blob that a save truncated hashes to its name exactly when the positions written since are enough for what was saved, unless an upload appended to its file; if only that save wrote, exactly when it got all its bytes in |
| FsRaces.RenamedExactly | ctf-registry/storage/filesystem/filesystem.go:77-111 | over every run: a blob a commit renamed hashes to its name exactly when its file holds the bytes verified; if the file renamed is the one verified, exactly when nothing was appended since |
| FsRaces.TruncatorKnown | ctf-registry/storage/filesystem/filesystem.go:113-126 | the save that truncated a file last wrote everything, failed, or is still writing |
| FsSessions.ContentAddressed | ctf-registry/storage/filesystem/filesystem.go:53-126 | one operation per session in flight: over every interleaving of system calls a blob hashes to its name exactly when it is intact, and it is unless the save that truncated it last is unfinished or failed |
| FsRuns.FailedSaveStays | ctf-registry/storage/filesystem/filesystem.go:113-126 | a save that fails after truncating leaves a broken blob that a second save accepts |
| FsRuns.RacingAppendPublished | ctf-registry/storage/filesystem/filesystem.go:86-105 | an append between verification and rename is published under a digest it does not have |
| FsRuns.OtherFileRight | ctf-registry/storage/filesystem/filesystem.go:86-105 | a run in which the file renamed is not the one verified and the blob is right |
| FsRuns.OtherSaveFillsIn | ctf-registry/storage/filesystem/filesystem.go:113-126 | a run in which the save that truncated the blob last failed, all has ended, and the blob is right |
| Storage.StepLaws | ctf-registry/storage/storage.go:10-19 | both backends: blobs never disappear and a digest reported stored is present |
| Storage.GoodMonotone | ctf-registry/storage/storage.go:10-19 | what an operation relies on survives every other operation |
| Registry.NoDangling | ctf-registry/handler/blobupload.go:41-140 | over every interleaving of handlers and failures, whatever a repository is associated with is in storage, then and ever after |
| Registry.ManifestClosure | ctf-registry/handler/manifest.go:33-109 | a manifest answered 201 stays in storage with its layers and config |
| RegistryAnswers.PutManifestExactly | ctf-registry/handler/manifest.go:33-109 | over any run: a PUT passes the check exactly when each layer and the config has a well-formed digest the repository was associated with when looked up; the first that has not is answered 400 (500 if its lookup failed) and nothing changes; unless a call fails it is then answered 201, and its last calls associated the digest, set the tag and appended the descriptor |
| RegistryAnswers.UploadExactly | ctf-registry/handler/blobupload.go:142-228 | over any run: a PATCH is answered 202 with the size the session has, a PUT or a POST with a digest 201 after associating it, 400 only for bytes that do not fit, 500 only after a failed call or a session that is gone; unless a call failed, the body was written before |
| RegistryAnswers.MountExactly | ctf-registry/handler/blobupload.go:82-135 | over any run: 201 and the association exactly when the lookup found the blob and the association succeeded, 202 when there is none |
| RegistryAnswers.DeleteExactly | ctf-registry/handler/manifest.go:161-196 | over any run: 202 and the association or the tag is gone, 404 exactly when there was none |
| RegistryAnswers.AnsweredAtOnce | ctf-registry/handler/blobupload.go:41-139 | malformed digests are refused without a call, and a plain POST opens a session |
| RegistryAnswers.GetBlobExactly | ctf-registry/handler/blob.go:23-57 | which response each outcome of the reads gives: the stored bytes exactly when they are associated, found and fit the digest |
| RegistryAnswers.GetManifestExactly | ctf-registry/handler/manifest.go:111-159 | the same for a manifest by digest or by tag: the decoding of the stored bytes of the tag's digest |
| Registry.GetAssociatedBlob | ctf-registry/handler/blob.go:23-57 | a GET of an associated digest finds its blob on either backend and is answered by what its bytes hash to; on S3 it always delivers bytes of that digest |
| RegistryOnDisk.GetAssociatedBlob | ctf-registry/handler/blob.go:23-57 | on disk, one request per session in flight: it delivers bytes of that digest exactly when the blob is intact, else 400, and it is intact unless the save that truncated it last failed or is still writing |
| Registry.GetByTag | ctf-registry/handler/manifest.go:111-159 | a GET by tag answers the decoding of the bytes under the digest of the payload stored last under the tag, or 404, never 400; on S3 those bytes are that payload |
| RegistryOnDisk.GetByTag | ctf-registry/handler/manifest.go:111-159 | on disk, one request per session in flight: those bytes are that payload exactly when its blob is intact; otherwise the save that truncated it last failed or is still writing, and the answer is what the bytes decode to, 500 if they do not |
| RegistryOnDisk.FailedPutStays | ctf-registry/handler/manifest.go:65-80 | a PUT of a manifest whose write fails answers 500, the same PUT again 201, and then its digest is answered 400 and its tag 500 |
| Registry.TaggedIsLast | ctf-registry/handler/manifest.go:76-80 | only a PUT under a tag sets it, to its own payload, and only a delete of that tag removes it |
| Registry.AssociatedExactly | ctf-registry/handler/blob.go:59-80 | associations are made only by uploads, mounts and manifests for them and removed only by a delete of that digest; what 201 and 202 mean |
| Registry.ReferrersAppended | ctf-registry/handler/manifest.go:82-100 | a manifest with a subject appends exactly its own descriptor, media and artifact type included, to that subject's referrers; nothing else changes them |
| Registry.ReferrersTyped | ctf-registry/handler/manifest.go:82-100 | every stored referrer has an artifact type |
| BoltStore.NestedLookup | ctf-registry/store/boltstore/bbolt.go:77-92 | a flat key is in the bucket exactly when the nested map has the pair, with the same value |
| BoltStore.NestedPut | ctf-registry/store/boltstore/bbolt.go:65-75 | putting a flat key is putting the pair into the nested map |
| BoltStore.NestedRemove | ctf-registry/store/boltstore/bbolt.go:94-111 | deleting a flat key is removing the pair from the nested map |
| BoltStore.KeysApart | ctf-registry/store/boltstore/bbolt.go:138-140 | keys of names without the separator collide only when both parts are equal |
| BoltStore.Store.SaveTag | ctf-registry/store/boltstore/bbolt.go:65-75 | refines the nested map's update |
| BoltStore.Store.ReadTag | ctf-registry/store/boltstore/bbolt.go:77-92 | refines the nested map's lookup |
| BoltStore.Store.DeleteTag | ctf-registry/store/boltstore/bbolt.go:94-111 | refines the nested map's removal, not-found included |
| BoltStore.Store.ScanTags | ctf-registry/store/boltstore/bbolt.go:113-123 | the prefix cursor scan returns exactly that repository's keys in byte order of their tags |
| BoltStore.Store.GetTagList | ctf-registry/store/boltstore/bbolt.go:113-136 | the window after `last` of exactly the repository's keys, for any spare capacity of the slice; the next four rows say what that window is |
| BoltStore.WindowAfter | ctf-registry/store/boltstore/bbolt.go:125-133 | after a key that is not the last come the keys that follow it, as many as asked for; past their number all of them and empty strings up to the capacity; else out of range |
| BoltStore.RestartsExactly | ctf-registry/store/boltstore/bbolt.go:125-133 | the list starts over exactly when `last` is empty, not a whole key, or the final key, or the limit exceeds even the whole list and its spare capacity |
| BoltStore.OutcomeExactly | ctf-registry/store/boltstore/bbolt.go:131-133 | out of range exactly when the limit exceeds the keys left and the spare capacity, padded with empty strings exactly when it exceeds the keys left but not both, and the page's length |
| BoltStore.PagingExactly | ctf-registry/store/boltstore/bbolt.go:113-136 | chaining whole keys in pages of n: k full pages are the first k * n keys; a shorter last page is padded within the capacity and out of range beyond it; after the final key, or the empty string that ends a padded page, the list starts over |
| BoltStore.PlainLastRestarts | ctf-registry/store/boltstore/bbolt.go:125-130 | a plain tag is never one of the repository's keys, so as `last` it starts the list over |
| BoltStore.Store.AddReference | ctf-registry/store/boltstore/bbolt.go:142-168 | appends the descriptor to the pair's list |
| BoltStore.Store.GetReferences | ctf-registry/store/boltstore/bbolt.go:170-199 | the pair's list, or exactly its referrers of the type asked for, in order; it breaks exactly when a type is asked for and a stored referrer has none |
| MetaStore.OfTypeSelects | ctf-registry/store/boltstore/bbolt.go:191-197 | the filter keeps the referrers at increasing positions, all those that have the type and no other |
| BoltStore.Store.AddBlob | ctf-registry/store/boltstore/bbolt.go:201-211 | refines adding the pair to the set |
| BoltStore.Store.DeleteBlob | ctf-registry/store/boltstore/bbolt.go:213-228 | refines removing the pair from the set, not-found included |
| BoltStore.Store.IsExistBlob | ctf-registry/store/boltstore/bbolt.go:230-243 | refines membership of the pair |
| DynamoStore.NestedAt | ctf-registry/store/dynamostore/dynamo.go:158-162 | an item is in a table exactly when the nested map has the pair, whatever the names are |
| DynamoStore.NestedPut | ctf-registry/store/dynamostore/dynamo.go:169-172 | putting an item is putting the pair into the nested map |
| DynamoStore.NestedRemove | ctf-registry/store/dynamostore/dynamo.go:216-222 | deleting an item is removing the pair |
| DynamoStore.Store.SaveTag | ctf-registry/store/dynamostore/dynamo.go:154-178 | refines the nested map's update |
| DynamoStore.Store.ReadTag | ctf-registry/store/dynamostore/dynamo.go:180-205 | refines the nested map's lookup, not-found told from failure |
| DynamoStore.Store.DeleteTag | ctf-registry/store/dynamostore/dynamo.go:207-228 | refines the nested map's removal, and which error comes first |
| DynamoStore.Store.GetTagList | ctf-registry/store/dynamostore/dynamo.go:230-279 | the page after `last` of exactly the repository's tags, sorted |
| DynamoStore.Store.AddReference | ctf-registry/store/dynamostore/dynamo.go:289-328 | alone, it appends the descriptor to the pair's list |
| DynamoStore.Store.GetReferences | ctf-registry/store/dynamostore/dynamo.go:359-383 | the pair's list, or exactly its descriptors of the type asked for, in order |
| DynamoStore.Store.AddBlob | ctf-registry/store/dynamostore/dynamo.go:390-413 | refines adding the pair to the set |
| DynamoStore.Store.DeleteBlob | ctf-registry/store/dynamostore/dynamo.go:415-448 | refines removing the pair from the set, not-found included |
| DynamoStore.Store.IsExistBlob | ctf-registry/store/dynamostore/dynamo.go:450-469 | refines membership of the pair |
| DynamoStore.CutPage | ctf-registry/store/dynamostore/dynamo.go:261-278 | the loop and slices compute that page |
| DynamoStore.PagingComplete | ctf-registry/store/dynamostore/dynamo.go:248-278 | chaining `last` through the first ceil(N/n) pages gives the whole sorted list with no gap or repeat, and one more call the first page again |
| ReferrerRaces.KeptExactly | ctf-registry/store/dynamostore/dynamo.go:289-328 | over any schedule: a put leaves the list as it stood just before plus its descriptor exactly when no other put came between its call's read and it |
| ReferrerRaces.ListExactly | ctf-registry/store/dynamostore/dynamo.go:289-328 | which referrers are there after any schedule: those of the puts on the chain of reads that leads back from the last put |
| ReferrerRaces.CountExactly | ctf-registry/store/dynamostore/dynamo.go:289-328 | every put adds one referrer exactly when no put falls between another call's read and put |
| ReferrerRaces.AllKeptExactly | ctf-registry/store/dynamostore/dynamo.go:289-328 | no referrer is lost exactly in that case |
| ReferrerRaces.InPutOrder | ctf-registry/store/dynamostore/dynamo.go:289-328 | and then the list is what it began with and all of them in the order of the puts |
| ReferrerRaces.OverlapLoses | ctf-registry/store/dynamostore/dynamo.go:296-322 | the referrer of a put that falls between another call's read and put is gone after that put |
| ReferrerRaces.AloneAppends | ctf-registry/store/dynamostore/dynamo.go:289-328 | a call that runs alone and meets no failure appends its descriptor |
| Scheduler.Pool.constructor | ctf-manager/service/manager.go:34-62 | every runner starts active, the cursor at the first |
| Scheduler.Pool.SelectRunner | ctf-manager/service/manager.go:64-79 | an active runner such that a scan from the cursor meets no active one before it, nil exactly when none is active; the cursor moves just past it |
| Scheduler.QueueMembers | ctf-manager/service/manager.go:69-76 | from any cursor a scan meets exactly the active runners |
| Scheduler.Rotation | ctf-manager/service/manager.go:69-76 | a selection moves the head of that order to its end |
| Scheduler.RoundRobinFair | ctf-manager/service/manager.go:64-79 | from any cursor, k consecutive selections of k active runners pick each exactly once, and after any number no runner is more than one ahead |
| Manager.Ownership | ctf-manager/service/manager.go:93-316 | over every interleaving and failure, records name distinct containers and every container has an owner: a record, a start about to insert one or whose insert failed, or a start the runner did not report |
| Manager.NoResurrection | ctf-manager/repository/instance_repository.go:82-135 | a deleted id never names a record again, whatever updates are in flight, and its container is gone |
| Manager.DeletedReportsDestroyed | ctf-manager/service/manager.go:270-276 | a status request that arrives after the deletion reports DESTROYED, a stop or destroy fails, unless the table cannot be read |
| Manager.RecordChanges | ctf-manager/service/manager.go:206-213 | a record keeps its container; its state changes only by a stop, to stopped, or by a status request that then reports that state; only a destroy that then reports success removes it |
| ManagerAnswers.InstanceExactly | ctf-manager/service/manager.go:170-316 | over any run, whatever others write in between: the reply to a stop, destroy or status from what its read, its lookup and the runner answered, and what its write leaves |
| ManagerAnswers.ReportsExactly | ctf-manager/service/manager.go:270-316 | a status request reports destroyed exactly when its read found no row or the runner said so, and another state exactly when the runner said that |
| ManagerAnswers.StartExactly | ctf-manager/service/manager.go:93-168 | over any run: a start succeeds exactly when a runner was chosen and reported a container, and inserts its row as running, or fails to and succeeds all the same |
| ManagerAnswers.NeverStuck | ctf-manager/service/manager.go:93-316 | a request that does not wait for the lock always goes on |
| Manager.StuckRecordExactly | ctf-manager/service/manager.go:251-268 | once a record's container is gone, the record can still be removed exactly if some destroy already has the runner's success; otherwise it stays for good |
| Manager.StartedIsKnown | ctf-manager/service/manager.go:132-168 | a successful start's id has a record until deleted, unless its insert failed |
| Manager.CleanupEnds | ctf-manager/service/manager.go:356-366 | cleanup gets past its first read exactly when it fails or finds nothing |
| Manager.CleanupBlocks | ctf-manager/service/manager.go:356-379 | otherwise it waits for its own lock for ever, and so does every request that needs the lock |
| Manager.CleanupBlocksStarts | ctf-manager/service/manager.go:64-67 | no start that arrives later ever reaches a runner |
| Manager.Table.Create | ctf-manager/repository/instance_repository.go:21-45 | adds the row unless its id is taken or the statement fails |
| Manager.Table.FindByID | ctf-manager/repository/instance_repository.go:47-80 | the row, or not found exactly when there is none |
| Manager.Table.Update | ctf-manager/repository/instance_repository.go:82-115 | never adds a row, and reports a missing one |
| Manager.Table.Delete | ctf-manager/repository/instance_repository.go:117-135 | removes the row, and reports a missing one |
| Expiry.TtlRoundTrips | ctf-manager/repository/instance_repository.go:35 | a time to live survives being stored exactly within +-9223372036 seconds |
| Expiry.TruncatesToZero | ctf-manager/repository/instance_repository.go:35 | the conversion to seconds drops the fraction, whatever the sign |
| Expiry.ExpiredExactly | ctf-manager/domain/instance.go:66-71 | an instance is expired exactly when more time has passed than its time to live, unless that is zero |
| Expiry.FoundIsExpired | ctf-manager/repository/instance_repository.go:228-234 | whatever the query finds is expired |
| Expiry.ExpiredIsFound | ctf-manager/domain/instance.go:66-71 | an expired instance is found one second later |
| Expiry.FoundWithinASecond | ctf-manager/domain/instance.go:66-71 | and that holds at every instant exactly when the time to live is not negative |
| RunnerPorts.Least | ctf-runner/service/runner.go:65-74 | the least free port's index |
| RunnerPorts.Runner.SelectPort | ctf-runner/service/runner.go:65-74 | takes the least free port, fails exactly when all are used |
| RunnerPorts.Runner.FreePort | ctf-runner/service/runner.go:76-82 | frees a port of the range and ignores any other |
| RunnerPorts.Runner.StartInstance | ctf-runner/service/runner.go:84-170 | the machine's start; a reported port is the container's, or 0 exactly when it already exited |
| RunnerPorts.Runner.StopInstance | ctf-runner/service/runner.go:172-187 | the machine's stop; success means it does not run |
| RunnerPorts.Runner.DestroyInstance | ctf-runner/service/runner.go:189-219 | the machine's destroy; success means it is gone |
| RunnerPorts.ConservedExactly | ctf-runner/service/runner.go:84-219 | a request keeps ports conserved exactly unless it frees a port and then fails to remove the container |
| RunnerPorts.PortsConserved | ctf-runner/service/runner.go:65-219 | over whole runs the used ports are the disjoint union of the containers' distinct ports and the lost ones |
| RunnerPorts.LostForGood | ctf-runner/service/runner.go:128-134 | a lost port is never given out again |
| RunnerPorts.OutOfPorts | ctf-runner/service/runner.go:93-99 | a start is turned away exactly when every port is held or lost |
| RunnerPorts.PortGivenTwice | ctf-runner/service/runner.go:198-214 | a failed removal lets the next start take the same port |
| PortRaces.PortExactly | ctf-runner/service/runner.go:65-74 | over every interleaving of starts, a start has a given port exactly when it looked at it before it was first marked |
| PortRaces.SharedExactly | ctf-runner/service/runner.go:65-74 | two starts have one port exactly when both looked at it before it was first marked |
| PortRaces.TurnedAway | ctf-runner/service/runner.go:65-74 | a start that finds no port saw each one used from the beginning or marked before it looked |
| PortRaces.NeverStuck | ctf-runner/service/runner.go:65-74 | a start that has not ended goes on, and ends without a port once it has looked at all |
| PortRaces.TwoStartsOnePort | ctf-runner/service/runner.go:65-74 | two starts get the first port although another is free |
| Scoring.Usecase.SubmitFlag | ctf-server/usecase/client_challenge.go:54-92 | the machine's three steps; nothing is recorded once the pair is solved; the points are those of the challenge read |
| Scoring.PreviousCorrect | ctf-server/usecase/client_challenge.go:60-69 | the search finds a correct submission exactly when the pair has one |
| Scoring.CorrectBounded | ctf-server/usecase/client_challenge.go:54-92 | over every interleaving a pair has at most one correct row plus one for each call about to insert one when the first was committed |
| Scoring.BoundReached | ctf-server/usecase/client_challenge.go:60-84 | for every number of racing calls the bound is reached |
| Scoring.AwardsAddUp | ctf-server/usecase/client_challenge.go:82-91 | over any run a user's awards never exceed what their correct rows are worth by the points their calls read, and equal it unless a committed row's call was told of a failure |
| Scoring.ScoredOnce | ctf-server/usecase/client_challenge.go:54-92 | in serial runs a pair has at most one correct row and is awarded at most once |
| ClientInstances.EveryInstanceAccounted | ctf-server/usecase/client_challenge.go:94-217 | over every interleaving and failure no stored row is destroyed, and every instance the manager reported is in a row, was released, is about to be stored, or is lost |
| ClientInstances.ReleasedBefore | ctf-server/usecase/client_challenge.go:173-208 | a row is removed only after the manager reported success or destroyed for it |
| ClientInstances.RestartLoses | ctf-server/usecase/client_challenge.go:103-119 | a restart keeps the old id; no row ever names the new instance and no request stops it or asks about it |
| ClientInstances.LostExactly | ctf-server/usecase/client_challenge.go:103-145 | an instance is lost exactly when a restart was given its id or the insert of its row did not happen |
| ClientInstances.DespiteExactly | ctf-server/usecase/client_challenge.go:96-126 | a start goes on beside a live row exactly when its read failed or the status is unknown |
| ClientInstances.SecondRowExactly | ctf-server/usecase/client_challenge.go:123-145 | in serial runs a new row is a second one exactly in that case |
| ClientInstances.OneRowPerPair | ctf-server/usecase/client_challenge.go:94-217 | serial runs without failed reads and unknown statuses: one row per user and challenge |
| ClientInstances.RowsBounded | ctf-server/usecase/client_challenge.go:94-147 | without failed reads and unknown statuses, however starts overlap, a pair never has more rows than there were starts about to add one at the same time |
| ClientInstances.PutLive | ctf-server/infrastructure/repository/instance_repository.go:93-118 | an update changes no row's owner and adds none |
| ClientInstances.Usecase.StartInstance | ctf-server/usecase/client_challenge.go:94-148 | the machine's start; an address answered is a live row's; a restart adds no row |
| ClientInstances.Usecase.RestartInstance | ctf-server/usecase/client_challenge.go:102-120 | the machine's restart; the row keeps its id and gets the new address |
| ClientInstances.Usecase.LaunchInstance | ctf-server/usecase/client_challenge.go:123-147 | the machine's launch; success stores a running row under the manager's id |
| ClientInstances.Usecase.StopInstance | ctf-server/usecase/client_challenge.go:150-183 | the machine's stop; success removes exactly the row found |
| ClientInstances.Usecase.GetInstanceStatus | ctf-server/usecase/client_challenge.go:185-217 | the machine's status, the challenge looked up first; the status told is stored and answered, a destroyed instance's row is removed, and an unreachable manager leaves the table alone |
| ClientAnswers.AnsweredExactly | ctf-server/usecase/client_challenge.go:94-217 | over any run, whatever others do in between: how a start, stop or status is answered from what its own calls met, and what they do to the table |
| ClientAnswers.NeverStuck | ctf-server/usecase/client_challenge.go:94-217 | a request always goes on |
| ClientAnswers.SomethingFound | ctf-server/infrastructure/repository/instance_repository.go:64-91 | the query for a pair always has an answer: none exactly when there is no live row, else a newest one |
| Tiers.ToldExactly | ctf-server/infrastructure/client/manager_client.go:104-113 | no state of the manager's is taken for another |
| Tiers.StoppedIsGone | ctf-server/usecase/client_challenge.go:150-217 | over every run of server and manager together: a row of the server names an instance whose record the manager has, has deleted or never saved; a row goes only by a stop or a status request, and after a stop the container is gone for good |
| Tiers.UnsavedNotStopped | ctf-server/usecase/client_challenge.go:173-180 | a row whose instance the manager never saved is never removed by a stop, at any later time; only a status request removes it |
| Tiers.UnsavedForgotten | ctf-server/usecase/client_challenge.go:190-208 | a status request that finds such a row and meets no failure removes it, and the container stays as it was |
| TierRuns.StopWorks | ctf-server/usecase/client_challenge.go:150-183 | a stop from end to end, without failures: the server's row, the manager's record and the container are gone |
| TierRuns.StartWorks | ctf-server/usecase/client_challenge.go:94-148 | a start from end to end, without failures: a running row, a running record under its id, and the container |
| BuildPipeline.ResultOf | ctf-builder/service/worker.go:83-132 | each way a build ends gives one terminal result, success only if image and push succeeded |
| BuildPipeline.TakenInOrder | ctf-builder/queue/redis.go:71-85 | over every interleaving jobs are taken in push order, each at most once |
| BuildPipeline.RegisterHistory | ctf-builder/service/worker.go:70-136 | each register gets at most one pending write, at most one building write and then at most one terminal write, and holds the last |
| BuildPipeline.SuccessWasBuilt | ctf-builder/service/worker.go:126-132 | success with an image means a worker took that job and built and pushed that image |
| BuildPipeline.TerminalFinalExactly | ctf-server/infrastructure/client/builder_client.go:104-142 | a terminal result stays exactly unless the pending write is still to come, which replaces it |
| BuildPipeline.StatusSettled | ctf-server/infrastructure/client/builder_client.go:104-142 | once both are written the status is final: terminal exactly when pending came first, else pending for ever |
| BuildPipeline.FinalOnceEnqueued | ctf-server/infrastructure/client/builder_client.go:104-145 | once a job was enqueued with success, the first terminal result of it that is read is its last |
| BuildPipeline.SuccessForgotten | ctf-server/infrastructure/client/builder_client.go:104-142 | a run in which a success ends up reading pending |
| BuildPipeline.NewestListed | ctf-server/infrastructure/client/builder_client.go:124-128 | the range 0..99 is always the newest hundred listed jobs, newest first, each once |
| BuildAnswers.EnqueueExactly | ctf-server/infrastructure/client/builder_client.go:88-145 | over any run: the five commands of an enqueue, what each leaves, and how it ends |
| BuildAnswers.JobExactly | ctf-builder/service/worker.go:70-136 | over any run: a worker takes the head of the queue, marks it building, then writes the one result its build and push came to |
| BuildClient.Redis.EnqueueBuild | ctf-server/infrastructure/client/builder_client.go:88-145 | the machine's five commands; it succeeds exactly when the first and the last do |
| BuildClient.Redis.SetBuildResult | ctf-builder/queue/redis.go:87-99 | the machine's write of a register |
| BuildClient.Redis.DequeueJob | ctf-builder/queue/redis.go:71-85 | the machine's pop; a job returned was the head of the queue |
| BuildClient.Redis.ListBuildLogs | ctf-server/infrastructure/client/builder_client.go:289-331 | a summary of exactly those of the first hundred listed jobs whose challenge is the one asked for (any if none is) and whose info and result are read, with that challenge and status, in the list's order |
| BuildClient.Kept | ctf-server/infrastructure/client/builder_client.go:296-328 | the positions that pass, each once and in order |
| BuildClient.AwaitImage | ctf-server/infrastructure/client/builder_client.go:246-278 | the loop ends at the first event that ends it, with that event's outcome |
| BuildClient.BuildImageSync | ctf-server/infrastructure/client/builder_client.go:224-279 | it fails if its enqueue fails; otherwise the first event that ends its loop decides, and an image returned was built and pushed by a worker for that job and is its result for good |
| BuildWorker.LastOfMeans | ctf-builder/service/worker.go:186-199 | the fold keeps the last non-empty text |
| BuildWorker.PublishedExactly | ctf-builder/service/worker.go:180-191 | what is published is each message's error and then its line, where not empty, in the order of the messages |
| BuildWorker.PushedExactly | ctf-builder/service/worker.go:209-257 | a push publishes the lines of its messages that have one, in order |
| BuildWorker.BuildImage | ctf-builder/service/worker.go:151-207 | fails exactly when the build does not start, the output is garbled or a message reports an error; its image is the one named last, its error the one reported last |
| BuildWorker.PushImage | ctf-builder/service/worker.go:209-257 | stops at the first unreadable or failing message, after publishing exactly the lines before it |
| BuildWorker.ProcessJob | ctf-builder/service/worker.go:70-136 | writes building, then one terminal result, and publishes its completion message last; succeeds exactly when nothing failed |
| BuildStream.SubscribeBuildLogs | ctf-server/infrastructure/client/builder_client.go:165-209 | what the callback hears and which event ends the loop; the first poll that reads a terminal result ends it |
| BuildStream.HeardExactly | ctf-server/infrastructure/client/builder_client.go:178-209 | the callback hears every message and every terminal result that is read, in order, and nothing else |
| BuildStream.EndExactly | ctf-server/infrastructure/client/builder_client.go:165-209 | which events end the loop |
| BuildStream.StreamBuildLog | ctf-server/interface/service/admin_service.go:319-378 | at most one complete frame, the last, and one exactly when the job had ended or a completion message or a poll ended the loop |
| BuildStream.CompletionDecodes | ctf-server/interface/service/admin_service.go:352-363 | a completion line's status is known exactly when the text after the prefix is one of the four names |
| BuildStream.WorkerMessageUnspecified | ctf-builder/service/worker.go:133 | the worker's completion messages decode to an unspecified status |
| BuildStream.PollMessageExact | ctf-server/infrastructure/client/builder_client.go:199-206 | the poller's message decodes to the stored status |
| BuildStream.EndTellsExactly | ctf-server/interface/service/admin_service.go:352-363 | the status a stream ends with is the job's exactly when a poll ended the loop or an output line of the build spells that status; without prefixed output lines exactly when a poll did |
| BuildStream.OutputLineMisleads | ctf-builder/service/worker.go:180-191 | a line of the build's output ends the stream of a failing job as a success |
| BuildStream.StatusRoundTrip | ctf-server/interface/service/admin_service.go:16-29 | each status name decodes to its status |

## Left out

- Handlers of the registry, the manager's service and the enqueuer are state machines rather than classes: their
  point is what happens between their calls. The methods of the classes are the same operations running alone.
- Annotations of manifests, and the re-encoding of a manifest on a GET: answers are compared after decoding.
- The range check of PATCH is part of `UploadSession` and not repeated in `Registry`, where any PATCH may append;
  an upload's PUT has no range check in the source either.
- A commit in `UploadSession` is two steps, verification and the removal or rename. `FsRaces` and `FsSessions` have its
  single system calls. `UploadSession` keeps a session's file as its bytes, `FsStorage` as an inode.
- The bytes of a blob that does not hash to its digest: `GetBlobs` answers 400 in the model, as the handler decides,
  but the backend has by then written the bytes to the response, and the first of them sends status 200.
- PATCH requests without a Content-Range or a Content-Length header in `UploadSession`; they skip the check.
- Short reads while a filesystem commit hashes the session file: the verification reads the file at one moment.
- The process-wide umask, permissions and directories of the filesystem backend, and crashes in the middle of a call.
- How far Go's `append` grows a slice: the spare capacity of the Bolt store's tag list is a parameter.
- A commit of an S3 upload while others still append to it: `S3Sessions` covers a session until it is committed.
- Removals that free a port while starts look for one: `PortRaces` has starts only, `RunnerPorts` one request at a time.
- Dynamo's one-megabyte pages of a query, and items that cannot be decoded.
- DeleteTag, DeleteBlob and AddReference of the Dynamo store are two calls each; `Registry` takes each metadata
  operation as one step, and `ReferrerRaces` says what overlapping referrer updates do.
- Reference listing by the referrers endpoint beyond the stores' filters: easy branches.
- BoltStore.Store.GetReferences: broken JSON in a stored list is not modelled, because only the store itself writes it.
- Port 0 of the runner: Docker would choose the port, so the model asks for a minimum of at least 1.
- The runner's status endpoint and the log streams of runner and manager: easy members.
- Manager.CleanupBlocks: what Cleanup would do after its first lookup is not modelled, because it never gets there.
- MySQL reporting zero affected rows for an update that changes nothing.
- Times of the server's instances other than their start, and their images.
- Floating point in `Duration.Seconds`: exact for whole seconds; the truncation of other durations is that of real numbers.
- The builder's own EnqueueJob, which issues the first and the last of EnqueueBuild's commands.
- Key expiry in Redis, the saved build logs, and the text of log lines other than the completion messages.
- Sessions, registration, challenges, attachments, presigned URLs, the web client, configuration and logging: no invariant that spans operations.
