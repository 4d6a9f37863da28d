# Verified model of the code map, intent control and skill runtime

This project models six parts of AntiSentinel in Dafny and proves what each of
them is for, over every input and every run.

* **Code map** (`JobLeases`, `CheckSchedule`, `Generations`, `CodeMapStore`):
  the fenced lease protocol of the scan jobs, the adaptive check schedule and
  the versioned snapshot store, first as transactions on table values with a
  monotone clock and any number of workers, then as the store object and the
  worker whose methods are those transactions.
* **Source slices** (`Utf8`, `SourceContext`, `PythonChunks`): UTF-8 as in
  section 3 of RFC 3629, boundary snapping, sub-slices, evidence that can be
  read back, and the chunking of Python symbols.
* **Graph and build** (`Distances`, `Neighbors`, `PyAst`, `Relations`,
  `ImportTargets`, `FileFacts`, `TextEdges`, `SnapshotBuild`): the bounded
  breadth-first search, name resolution, the parser's visitor, rebinding and the
  fact cache.
* **From build to reader** (`BuildRows`, `Staging`, `BuildHistories`,
  `BuiltSources`, `SymbolSources`, `EmptyFiles`, `SampleTools`): the rows a build
  stages, and what holds of a database that any sequence of builds has written,
  up to the source of every symbol the readers load from it.
* **Intents** (`IntentModel`, `IntentSources`, `IntentMerge`, `IntentRevise`,
  `IntentNormalize`, `IntentRecheck`, `IntentResolve`, `Clarifications`,
  `IntentLedger`, `IntentService`, `LiveRoutes`, `Dispatch`, `StopRace`): source
  checks, the merge with re-indexed provenance, resolution against the envelope
  validator, the ledger of revisions, and the crash-tolerant handoff to answers,
  plans and controls.
* **Skills and sessions** (`SkillState`, `SkillRestore`, `SkillResume`,
  `SkillRuntime`, `ResourceCache`, `Sessions`): optimistic prepare and commit, checkpoints, the
  byte-bounded LRU cache, and mutual exclusion of sessions.

SHA-256 digests and uuid4 values are injective or fresh values, a database
transaction is one atomic step, clocks and random values are parameters, and
what a regular expression matches is a function handed in from outside.

## Results that differ from the obvious claim

* The chunk loop of the Python parser does not always end. It ends exactly when
  at most `max_chunk_bytes` follow the line limit (`PythonChunks.EndsIffBounded`).
* `start_session` scans the incident's sessions before it looks at the
  reservation set, while registration and release happen outside the lock. A
  call can therefore be granted the reservation on an outdated scan and go on
  to a second live session (`Sessions.OutdatedGrant`,
  `Sessions.SecondLiveSession`). Mutual exclusion holds in every run without
  such a grant, in particular when no call scans an incident that another one
  holds (`Sessions.OneLiveSession`, `Sessions.OneLiveUnlessScannedReserved`).
* A checkpoint whose revision is no number makes `restore` fail after it has
  replaced the loaded skills and references (`SkillRestore.FailedRestoreIff`).
* Re-indexing a context-sourced constraint can break verified provenance
  (`IntentMerge.MergeTracedIff`, `IntentRecheck.ContextConstraintMoves`).
* A task-control correction can be refused after the merge because it inherits
  a task target its message does not name (`IntentRecheck.CarriedTaskRejected`,
  `IntentRecheck.RevisionAcceptedIff`).
* The receipt of a stop is kept per revision, not per task. A dispatcher that
  saw one active run can go on after the stop of another one
  (`StopRace.OtherTaskStopped`, `Dispatch.StoppedTaskIff`).
* A second activation saves a selection that memory does not keep
  (`SkillState.SavedSelectionIff`).
* Registering a repository again can leave its interval outside the new bounds;
  the row is stored, but neither this call nor a later one can read it back
  until a check repairs it (`CheckSchedule.ReregisterBounds`,
  `CheckSchedule.SuccessRestoresMaximum`).
* Publishing replaces rows by primary key, so another snapshot's rows survive
  exactly when no staged key is one of theirs (`Generations.LiveRowsUndisturbed`);
  builds meet that condition whatever was built before
  (`BuildHistories.BuildsKeepHistory`).
* A chunk with an empty range, as the one of an empty file of another language,
  is stored but never loads (`BuiltSources.BuiltChunksLoad`,
  `EmptyFiles.EmptyFileNeverLoads`, `SampleTools.EmptyGoFile`).
* `import a.b` binds the name `a`, but `a.f()` is looked up in module `a.b`
  (`ImportTargets.AttributeOfDenotedModuleIff`,
  `ImportTargets.DottedImportLooksElsewhere`).
* Restoring checks no budget and no prepared value, so it can disclose beyond the
  budget or let an outdated value be committed (`SkillResume.RestoreKeepsInvIff`,
  `SkillResume.RestoreBeyondBudget`, `SkillResume.PreparedBeforeRestore`).

## Model

| member | source | states |
|---|---|---|
| `JobLeases.NextKeepsInv` | src/antisentinel/code_map/store.py:246-348 | every statement on jobs, slot and attempts keeps the lease invariant: tokens are unique, at most one unexpired lease, an unexpired slot mirrors its job |
| `JobLeases.OneUnexpiredJob` | src/antisentinel/code_map/store.py:246-296 | over every interleaving under a monotone clock at most one job runs under an unexpired lease, and the slot shows that lease |
| `JobLeases.SlotNamesItsJob` | src/antisentinel/code_map/store.py:246-316 | a filled slot is never an orphan: exactly one job carries its owner, token and expiry, and that job is running |
| `JobLeases.SlotAndJobLiveTogether` | src/antisentinel/code_map/store.py:298-316 | the two heartbeat updates hit together or not at all |
| `JobLeases.DeadForever` | src/antisentinel/code_map/store.py:298-316 | a lease that expired, was closed or was superseded is dead in every later world |
| `JobLeases.DeadLeaseNeverActs` | src/antisentinel/code_map/store.py:298-348 | such a lease is never revived by a heartbeat and never publishes |
| `JobLeases.LiveLeaseExcludes` | src/antisentinel/code_map/store.py:246-348 | while a lease stays live across a step, the step neither claims a job nor publishes for anyone else |
| `JobLeases.PublishIsFenced` | src/antisentinel/code_map/store.py:333-348 | between the claim that issued a lease and its publication no other claim succeeds and no other publication is accepted |
| `JobLeases.AttemptsNeverShrink` | src/antisentinel/code_map/store.py:276-294 | the attempt number of a job never falls |
| `JobLeases.ClaimsAreNumbered` | src/antisentinel/code_map/store.py:276-294 | every later claim of the same job gets a strictly larger attempt number and another token |
| `JobLeases.ClosingReleases` | src/antisentinel/code_map/store.py:318-328 | closing a lease leaves its token in no job and not in the slot |
| `JobLeases.FinishedWorkerHoldsNothing` | src/antisentinel/code_map/worker.py:32-87 | after the publish or fail_job that ends run_once, the worker's token is held nowhere, in any later world |
| `JobLeases.OneJobPerRequestedIdentity` | src/antisentinel/code_map/store.py:604-619 | any history of enqueues creates exactly one job per distinct build identity and no other job |
| `Generations.InsertIsUnion` | src/antisentinel/code_map/store.py:349-376 | inserting staged rows one by one by primary key is a map union in which the staged rows win |
| `Generations.RowsAfterWrite` | src/antisentinel/code_map/store.py:349-376 | after a publication the rows of its snapshot are exactly the rows staged for it |
| `Generations.WriteKeepsInv` | src/antisentinel/code_map/store.py:349-382 | publishing keeps live rows tagged, archived and consistent with their snapshot rows |
| `Generations.LiveRowsUndisturbed` | src/antisentinel/code_map/store.py:349-376 | a publication leaves another snapshot's live rows alone if and only if no staged key belongs to that snapshot |
| `Generations.ReadIsStable` | src/antisentinel/code_map/store.py:443-459 | a readable generation stays readable with the same content through the next publication |
| `Generations.ArchiveIsWriteOnce` | src/antisentinel/code_map/store.py:443-450 | archived content survives any publication, even a badly staged one |
| `Generations.NewGenerationReadsBack` | src/antisentinel/code_map/store.py:349-382 | a new generation reads back as exactly its snapshot row and its staged rows |
| `Generations.PublishAppends` | src/antisentinel/code_map/store.py:333-382 | a publication appends one entry to the log of its own snapshot and touches no other log |
| `Generations.FirstPublish` | src/antisentinel/code_map/store.py:333-382 | the first publication starts a snapshot's log at generation 1 |
| `Generations.ReadForever` | src/antisentinel/code_map/store.py:451-459 | over any history of publications, a generation that was readable reads the same for ever |
| `Generations.GenerationsFromOne` | src/antisentinel/code_map/store.py:451-459 | from an empty database the readable generations of a snapshot are exactly 1 up to its current one |
| `Generations.ReadyIsFrozen` | src/antisentinel/code_map/store.py:349-353 | a ready snapshot never changes again: its row, its live rows and what every generation number of it reads |
| `Generations.BlobForever` | src/antisentinel/code_map/store.py:378-382 | a stored blob keeps its content for ever |
| `CheckSchedule.IntervalLaw` | src/antisentinel/code_map/store.py:170-217 | after a change, n unchanged successful checks leave the interval at min(min_interval * 2^n, max_interval), whatever failures, lost leases, pauses and resumes lie between |
| `CheckSchedule.ChangeResets` | src/antisentinel/code_map/store.py:170-217 | a successful check that sees another commit resets the interval and asks for one build |
| `CheckSchedule.CompletesOnce` | src/antisentinel/code_map/store.py:170-194 | a check lease completes at most once: after an accepted completion a second one changes nothing, and a refused one changed nothing itself |
| `CheckSchedule.BoundsKept` | src/antisentinel/code_map/store.py:170-217 | between registrations the interval never leaves its bounds |
| `CheckSchedule.ReregisterBounds` | src/antisentinel/code_map/store.py:88-141 | registering again stores the new bounds and keeps the old interval; it answers with the row if and only if that interval fits them, and with an error otherwise |
| `CheckSchedule.ReregisterCanBreakBounds` | src/antisentinel/code_map/store.py:88-141 | a concrete registration that is stored and then can no longer be read |
| `CheckSchedule.SuccessRestoresMaximum` | src/antisentinel/code_map/store.py:170-217 | however far outside, one successful check brings the interval back under the maximum; the row can be read again if and only if the commit changed, there was no interval, or twice the old one reaches the minimum |
| `CodeMapStore.Store.ClaimCheck` | src/antisentinel/code_map/store.py:142-168 | the due repository whose next check is earliest gets the check lease; none is given exactly when none is due |
| `CodeMapStore.Store.InsertOrGetJob` | src/antisentinel/code_map/store.py:604-619 | a row with this identity is returned as it is, otherwise one queued row is added and nothing else changes |
| `CodeMapStore.Store.CompleteCheck` | src/antisentinel/code_map/store.py:170-217 | a lost lease and a success without a commit are refused and change nothing; otherwise the new registration is the one the schedule prescribes, and a changed commit enqueues its build in the same transaction |
| `CodeMapStore.Store.SelectClaimable` | src/antisentinel/code_map/store.py:254-270 | the earliest claimable job by creation time and id, or none exactly when no job is claimable |
| `CodeMapStore.Store.ClaimJob` | src/antisentinel/code_map/store.py:246-296 | the claim transaction is a claim step of the lease protocol |
| `CodeMapStore.Store.Heartbeat` | src/antisentinel/code_map/store.py:298-316 | the heartbeat transaction is a heartbeat step of the lease protocol |
| `CodeMapStore.Store.FailJob` | src/antisentinel/code_map/store.py:318-328 | closing a job as failed is a fail step of the lease protocol and leaves the map tables alone |
| `CodeMapStore.Store.RetryJob` | src/antisentinel/code_map/store.py:461-465 | only partial and failed jobs are queued again, as a retry step |
| `CodeMapStore.Store.WriteSnapshot` | src/antisentinel/code_map/store.py:349-382 | rows, blobs and both archived generations become what the specification of a publication says |
| `CodeMapStore.Store.Publish` | src/antisentinel/code_map/store.py:333-441 | every answer of publish fixes both what it did to the lease tables and what it did to the map tables |
| `CodeMapStore.Store.ReadGeneration` | src/antisentinel/code_map/store.py:451-459 | the live rows for the current generation, the archived ones for an older one |
| `CodeMapStore.Worker.Conclude` | src/antisentinel/code_map/worker.py:58-84 | each outcome of the build process ends in the publish or the fail_job it calls for |
| `CodeMapStore.Worker.RunOnce` | src/antisentinel/code_map/worker.py:32-87 | one run claims, concludes and returns still holding nothing of its own |
| `Utf8.DecodeEncode` | src/antisentinel/code_map/store.py:471-493 | decoding the encoding of a text gives the text (section 3 of RFC 3629) |
| `Utf8.EncodeDecode` | src/antisentinel/code_map/store.py:471-493 | encoding a successfully decoded octet sequence gives the octets back: no overlong forms, no surrogates |
| `Utf8.CutsSplit` | src/antisentinel/code_map/store.py:480-489 | in valid UTF-8 the bit test of the boundary loops finds exactly the positions that split the text in two texts |
| `Utf8.SnappedSliceIsValid` | src/antisentinel/code_map/store.py:471-493 | between two snapped ends lies valid text |
| `Utf8.OwnerHoldsFirstOctet` | src/antisentinel/code_map/store.py:480-489 | a character lies in a snapped range if and only if the unsnapped range holds its first octet |
| `Utf8.AdjacentSlicesJoin` | src/antisentinel/code_map/store.py:480-493 | adjacent snapped slices join without gap or overlap |
| `Utf8.ChunksConcatenate` | src/antisentinel/code_map/store.py:471-493 | decoding the snapped chunks of a tiling one by one gives the decoded snapped range |
| `Utf8.EachCharacterHasAnOwner` | src/antisentinel/code_map/store.py:480-493 | every character belongs, whole, to one snapped chunk |
| `Utf8.OwnersAreUnique` | src/antisentinel/code_map/store.py:480-493 | and to no other |
| `SourceContext.SnapForward` | src/antisentinel/code_map/store.py:480-489 | the boundary loop stops at the first position at or after its start that no character straddles |
| `SourceContext.Utf8ItemIsBlobRange` | src/antisentinel/code_map/store.py:471-493 | a UTF-8 chunk carries exactly the blob octets between its snapped ends, with their hash |
| `SourceContext.SliceAcceptedIff` | src/antisentinel/code_map/source_context.py:103-116 | a sub-slice is accepted if and only if it names the parent, lies inside it, is not empty and cuts no character; it then equals blob[start:end] |
| `SourceContext.ChunkForever` | src/antisentinel/code_map/store.py:495-517 | a chunk that could be read reads the same after any later publications |
| `SourceContext.ItemReadsBack` | src/antisentinel/code_map/source_context.py:34-85 | reading the recorded range of an item again gives the item again |
| `SourceContext.EvidenceRoundTrip` | src/antisentinel/code_map/source_context.py:34-96 | whatever is published later, rehydrate returns the slice read_source returned if and only if the incident is still bound to that generation and commit |
| `SourceContext.EvidenceService.LoadChunk` | src/antisentinel/code_map/store.py:495-517 | the chunk of the requested generation with its blob, or the error of the first check that fails |
| `SourceContext.EvidenceService.ReadUtf8` | src/antisentinel/code_map/store.py:471-493 | the item the specification of the UTF-8 reader gives |
| `SourceContext.EvidenceService.ReadSource` | src/antisentinel/code_map/source_context.py:34-58 | the validated slice and one new evidence record, or an error and no record |
| `SourceContext.EvidenceService.Rehydrate` | src/antisentinel/code_map/source_context.py:60-85 | the slices of all source references in order, or the error of the first that fails |
| `PythonChunks.LineOffsets` | src/antisentinel/code_map/python_parser.py:122-130 | offsets start at 0, end at the length and stand exactly at the ends of the lines |
| `PythonChunks.LineForOffset` | src/antisentinel/code_map/python_parser.py:133-137 | the one line whose octets hold the offset; the last line beyond the end |
| `PythonChunks.EndsIffBounded` | src/antisentinel/code_map/python_parser.py:97-107 | the chunk loop ends if and only if the octets after the line limit fit into one chunk |
| `PythonChunks.UnboundedOscillates` | src/antisentinel/code_map/python_parser.py:97-107 | otherwise the cursor enters a two-cycle between the limit and one chunk after it |
| `PythonChunks.DefaultLimitsCanLoop` | src/antisentinel/code_map/python_parser.py:30-33 | a concrete source file of one function and 201 lines, with its line table, on which the default limits do not end |
| `PythonChunks.CutPieces` | src/antisentinel/code_map/python_parser.py:97-107 | where it ends, the loop tiles [start, end) in order with pieces of at most max_chunk_bytes |
| `PythonChunks.ChunksFor` | src/antisentinel/code_map/python_parser.py:93-119 | the chunks tile the symbol, and their first and last lines bracket them inside it |
| `PythonChunks.ChunkInData` | src/antisentinel/code_map/python_parser.py:93-119 | so every chunk is a non-empty range of the file |
| `PythonChunks.LinesInside` | src/antisentinel/code_map/python_parser.py:109-112 | the lines of a piece lie between the first and the last line of the symbol |
| `PythonChunks.TilesJoin` | src/antisentinel/code_map/python_parser.py:93-119 | the contents of the chunks, joined, are the source of the symbol |
| `Neighbors.SuccessorMeans` | src/antisentinel/code_map/query.py:70-78 | the rows of the queries for a node are the nodes at the other end of an edge of an allowed relation in an allowed direction |
| `Neighbors.Scan` | src/antisentinel/code_map/query.py:79-91 | one result set: new nodes are appended once each, up to the budget and the row cap |
| `Neighbors.ScanLimited` | src/antisentinel/code_map/query.py:76-91 | cutting the result set by the SQL LIMIT changes nothing, because a truncated one always reaches the cap |
| `Neighbors.GetNeighbors` | src/antisentinel/code_map/query.py:54-99 | no duplicates, never the seed, at most node_budget, nearest first, only nodes within depth, all of them unless incomplete, and incomplete exactly when budget or row cap is exceeded |
| `Distances.LevelCompletes` | src/antisentinel/code_map/query.py:68-98 | a level that missed nothing completes the next distance |
| `Distances.CutShortIsIncomplete` | src/antisentinel/code_map/query.py:79-95 | a level that was cut short really left something out |
| `Distances.FinishedIsCorrect` | src/antisentinel/code_map/query.py:68-99 | when the outer loop ends, the answer is the set of nodes within the depth |
| `Relations.InnermostDecides` | src/antisentinel/code_map/relations.py:56-81 | resolution depends on the innermost scope that binds the name, and only when that binding is the only one there |
| `Relations.LexicalTargetIsSoleBinding` | src/antisentinel/code_map/relations.py:56-81 | a lexical target is given if and only if the deciding scope binds the name to one single definition; it is the last symbol recorded under that definition's qualified name and end line, and none if there is no such symbol |
| `ImportTargets.FromImportTargetIff` | src/antisentinel/code_map/relations.py:65-71 | a plain name is resolved through a from-import if and only if the deciding scope binds it by that import alone; the target is the sole symbol of that name in the sole file of the module, bound once at its top level |
| `ImportTargets.ModuleAttributeTargetIff` | src/antisentinel/code_map/relations.py:72-73 | the same for an attribute of a name bound by a plain import, in the module the statement names |
| `ImportTargets.AttributeOfDenotedModuleIff` | src/antisentinel/code_map/relations.py:17-24 | such a target belongs to the module its name denotes if and only if the import gives an as-name or names a module without a dot |
| `ImportTargets.DottedImportLooksElsewhere` | src/antisentinel/code_map/relations.py:17-73 | a concrete import a.b followed by a.f(), resolved to f of module a.b although the name denotes the package a |
| `Relations.ResolveAllIsGood` | src/antisentinel/code_map/relations.py:36-114 | every resolved edge joins emitted symbols, and every test or import edge mirrors a call edge at the same place |
| `Relations.VisitIsGood` | src/antisentinel/code_map/relations.py:90-113 | one visited node emits only such edges, and class tables are never among the searched scopes |
| `FileFacts.Visitor.VisitBody` | src/antisentinel/code_map/python_parser.py:48-78 | the visitor with its stack records exactly the facts of the recursive specification |
| `FileFacts.Visitor.Add` | src/antisentinel/code_map/python_parser.py:57-76 | one symbol, its chunks and its parent entry are recorded before its body is visited |
| `FileFacts.BodyFactsWellFormed` | src/antisentinel/code_map/python_parser.py:48-78 | chunks and parents name recorded symbols |
| `FileFacts.BodyFactsMove` | src/antisentinel/code_map/snapshot_builder.py:91-104 | parsing under another scope is parsing and then renaming |
| `FileFacts.MovedIsUnique` | src/antisentinel/code_map/snapshot_builder.py:91-104 | renaming leaves no choice |
| `FileFacts.Rebind` | src/antisentinel/code_map/snapshot_builder.py:91-104 | the loops of _rebind compute the renaming |
| `FileFacts.ReboundWellFormed` | src/antisentinel/code_map/snapshot_builder.py:91-104 | renamed facts are again consistent |
| `FileFacts.RebindIsReparse` | src/antisentinel/code_map/snapshot_builder.py:91-104 | rebinding facts parsed under one scope equals parsing under the other |
| `FileFacts.ChunksComeFromCut` | src/antisentinel/code_map/python_parser.py:57-76 | every chunk of a file is a piece of what was cut for one of its symbols |
| `FileFacts.CutsAreKept` | src/antisentinel/code_map/python_parser.py:57-76 | and every piece that was cut for a symbol is one of its chunks |
| `TextEdges.ResolveJoins` | src/antisentinel/code_map/multilang_parser.py:57-93 | every edge found by text patterns starts at a symbol of the given files, and ends at one or keeps the text it could not resolve |
| `SnapshotBuild.FactCache.Put` | src/antisentinel/code_map/incremental.py:19-28 | the cache returns what was put under the key and keeps every other entry |
| `SnapshotBuild.CachedIsFresh` | src/antisentinel/code_map/snapshot_builder.py:46-73 | the cache changes nothing but the number of hits |
| `SnapshotBuild.EveryCachedBuildIsFresh` | src/antisentinel/code_map/snapshot_builder.py:33-88 | over any sequence of builds sharing a cache, every build gives the result of a fresh one |
| `SnapshotBuild.BuildEntry` | src/antisentinel/code_map/snapshot_builder.py:46-73 | one entry: lookup, parse, put, rebind, record as the specification says |
| `SnapshotBuild.Build` | src/antisentinel/code_map/snapshot_builder.py:33-88 | the loop over the tree computes the cache-free specification |
| `SnapshotBuild.FilesAreParsedInPlace` | src/antisentinel/code_map/snapshot_builder.py:53-62 | every file carries its own data and hash and chunks inside that data; a Python file carries the facts of a parse made directly under the snapshot, cut along its lines |
| `SnapshotBuild.SymbolsOfOwnFile` | src/antisentinel/code_map/snapshot_builder.py:53-74 | the files of a build carry symbols of their own path, so a symbol belongs to one module |
| `SnapshotBuild.RowsAreClosed` | src/antisentinel/code_map/snapshot_builder.py:74-80 | chunks, parents and both ends of every edge, of Python-only and of mixed builds, name nodes emitted by the same build under the same snapshot |
| `Staging.SecondaryKeysFollow` | src/antisentinel/persistence/sqlite_database.py:385-412 | rows whose keys are the builder's digests and that agree on a secondary key (path of a file; path, kind, name and lines of a node) have the same primary key |
| `Staging.BuildRowsAreOk` | src/antisentinel/code_map/snapshot_builder.py:67-80 | every row of a build is tagged with its snapshot, keyed by a digest that covers the snapshot and its secondary key, and refers to nodes of the same build only |
| `Staging.BuildIsKeyed` | src/antisentinel/code_map/snapshot_builder.py:67-80 | what a build hands to publish: the snapshot id is the digest of the lease's identity, and every row is tagged and keyed |
| `Staging.BuildIsSelfContained` | src/antisentinel/code_map/snapshot_builder.py:74-80 | every node a staged edge or chunk refers to is staged with it |
| `BuildHistories.KeyedIsWellStaged` | src/antisentinel/code_map/store.py:349-376 | rows keyed by injective digests can collide with no other snapshot's rows |
| `BuildHistories.WriteKeepsReferences` | src/antisentinel/code_map/store.py:349-376 | replacing a snapshot's rows leaves no live row that refers to a node that is gone or belongs to another snapshot |
| `BuildHistories.BuildsKeepHistory` | src/antisentinel/code_map/store.py:333-441 | over any sequence of builds every build is well staged when it is published, and names, keys, references and archived generations stay consistent |
| `BuildHistories.BuildRefusedIffReady` | src/antisentinel/code_map/store.py:349-353 | publishing one more build under its lease is refused if and only if its snapshot is ready |
| `BuildHistories.BuilderLogs` | src/antisentinel/code_map/store.py:349-459 | from an empty database, after any builds the readable generations of a snapshot are exactly 1 up to its current one, and each reads the same after any further builds |
| `BuildHistories.LiveSecondaryKeysUnique` | src/antisentinel/persistence/sqlite_database.py:385-412 | over any sequence of builds live rows that agree on a secondary key are the same row |
| `BuildHistories.StagedSecondaryKeysFollow` | src/antisentinel/code_map/store.py:349-376 | a staged row collides on a secondary key with no live row of another primary key, so INSERT OR REPLACE deletes nothing else |
| `BuiltSources.PublishedPathsAreUnique` | src/antisentinel/persistence/sqlite_database.py:385-395 | in every generation that builds have published, a path names at most one file |
| `BuiltSources.BuiltStoreHasUniquePaths` | src/antisentinel/code_map/source_context.py:34-85 | so what the evidence service requires of the store holds of every store that builds alone have written |
| `BuiltSources.ReadableIsStored` | src/antisentinel/code_map/store.py:349-459 | a generation that can be read holds exactly the rows of one request, and its blobs are stored |
| `BuiltSources.BuiltChunksLoad` | src/antisentinel/code_map/store.py:495-517 | every chunk of a generation that builds have published passes all checks of the readers if and only if its range is not empty, and what is read is the file of that path as the build saw it |
| `BuildRows.ChunksHaveRows` | src/antisentinel/code_map/snapshot_builder.py:75-88 | every chunk of every parsed file is staged |
| `SymbolSources.BuildChunkTable` | src/antisentinel/code_map/snapshot_builder.py:75-88 | the chunk rows a build stores are those of the chunks of its files: every one of them, and no others |
| `SymbolSources.SymbolsReadBack` | src/antisentinel/code_map/store.py:451-517 | in every generation that builds have published, the chunk rows that name the node of a Python symbol load, tile the lines of the symbol, and joined they are its source |
| `EmptyFiles.EmptyFileNeverLoads` | src/antisentinel/code_map/multilang_parser.py:31-46 | whatever was built before, a build that lists an empty file with a chunk publishes a generation that holds the chunk, and the readers refuse it |
| `SampleTools.ToolsAreSound` | src/antisentinel/code_map/snapshot_builder.py:53-60 | what builds assume of their toolchain can be met, by one with syntax trees and whole-file symbols |
| `SampleTools.EmptyGoFile` | src/antisentinel/code_map/multilang_parser.py:31-46 | a concrete commit with one empty Go file whose chunk is stored and never loads |
| `IntentResolve.ResolveVerified` | src/antisentinel/control/intent_validation.py:89-146 | a stale revision is rejected, and otherwise the envelope is the specified resolution |
| `IntentResolve.ResolutionIsValid` | src/antisentinel/domain/intent.py:192-227 | whatever valid candidate, context and identity arrive, the envelope passes ResolvedIntent.validate |
| `IntentResolve.ResolvedIffSettled` | src/antisentinel/control/intent_validation.py:89-146 | a request resolves if and only if nothing is missing, ambiguous, unbound or uncheckable and its route is available; task control then has exactly one accessible task |
| `IntentResolve.TaskIffOnly` | src/antisentinel/control/intent_validation.py:111-122 | a task is bound if and only if exactly one accessible task fits the target |
| `IntentSources.ValidateSources` | src/antisentinel/control/intent_validation.py:24-64 | the dictionaries of the source check agree if and only if provenance is a bijection onto the fields and every claim holds |
| `IntentRevise.PutSets` | src/antisentinel/control/intents.py:69-105 | assigning a source in the ordered dictionary sets that path and no other |
| `IntentRevise.Merge` | src/antisentinel/control/intents.py:69-105 | the loops of _merge compute the specified merge, with every path's origin |
| `IntentMerge.MergedEntity` | src/antisentinel/control/intents.py:86-89 | every entity keeps its newest value |
| `IntentMerge.MergeTracedIff` | src/antisentinel/control/intents.py:69-105 | the merged provenance passes the source checks if and only if the control target carries over and every re-indexed context-sourced constraint is known at its new address |
| `IntentMerge.UserSourcedMergeIsTraced` | src/antisentinel/control/intents.py:69-105 | user-sourced constraints in a correction, or in a continuation outside task control, always pass |
| `IntentNormalize.NormalizeConstraints` | src/antisentinel/control/intent_validation.py:67-86 | the loops compute the specified normalisation |
| `IntentNormalize.NormalizeKeepsTraced` | src/antisentinel/control/intent_validation.py:67-86 | normalisation keeps provenance a verified bijection onto the fields |
| `IntentNormalize.NormalizeKeepsKinds` | src/antisentinel/control/intent_validation.py:67-86 | it removes nothing but aliases of a read-only flag that stays, and keeps the candidate valid |
| `IntentRecheck.MergedKinds` | src/antisentinel/control/intents.py:91-103 | the merged constraints have exactly the kinds of both sides, and non-other kinds stay unique |
| `IntentService.MergedIsValid` | src/antisentinel/domain/intent.py:84-125 | merging two valid candidates gives a valid candidate |
| `IntentRecheck.RevisionAcceptedIff` | src/antisentinel/control/intent_validation.py:24-64 | a merge of a traced candidate passes the second source check if and only if the control target carries over, the shifted context constraints are known at their new addresses, and the carried fields still agree with the message; then its normal form passes too |
| `IntentRecheck.CorrectionAgreesIff` | src/antisentinel/control/intent_validation.py:37-46 | a correction agrees with a message that names tasks if and only if it is no task control or a carried task target, where it gives none of its own, is among them |
| `IntentRecheck.ContinuationAgreesIff` | src/antisentinel/control/intent_validation.py:26-36 | outside task control a continuation agrees with its message if and only if it keeps the type or the revision carries every prohibition the message opens with |
| `IntentRecheck.NormalizedAcceptedIff` | src/antisentinel/control/intent_validation.py:15-86 | the normalised merge passes under the same conditions, except that an alias that is dropped need not be known at its new address |
| `IntentRecheck.RevisionAccepted` | src/antisentinel/control/intent_validation.py:15-86 | with user-sourced constraints the second check passes if and only if the control target carries over and the carried fields agree with the message, which outside task control is always so for a correction or a continuation of the same type |
| `IntentRecheck.CarriedTaskRejected` | src/antisentinel/control/intents.py:85-88 | a concrete user-sourced task-control correction that passes the first source check and fails the second, because it inherits a task its message does not name |
| `IntentRecheck.ContextConstraintMoves` | src/antisentinel/control/intents.py:97-102 | a concrete verified candidate whose merge is no longer verified, because its constraint changed address |
| `IntentService.CarryRequirements` | src/antisentinel/control/intents.py:42-45 | every requirement the previous revision missed is demanded again, none of the caller's is lost |
| `IntentService.ResolveCandidate` | src/antisentinel/control/intent_validation.py:15-21 | an envelope is built if and only if identity, sources and revision pass |
| `IntentService.Revise` | src/antisentinel/control/intents.py:34-66 | a revision built on a stored one keeps its prohibitions and answers or repeats its open requirements |
| `IntentService.CommitKeepsStored` | src/antisentinel/persistence/intent_store.py:113-159 | a commit keeps the stored history valid and connected however much was committed since the previous revision was read |
| `IntentService.ProhibitionsOutlive` | src/antisentinel/control/intents.py:69-105 | a read_only or forbid_restart prohibition stays in every later revision along continuations and corrections |
| `IntentService.Service.First` | src/antisentinel/control/intents.py:48-66 | a first revision is stored under an unused identity, or nothing changes |
| `IntentService.Service.Later` | src/antisentinel/control/intents.py:32-66 | the next revision follows exactly the head the caller named, or nothing but expired questions changes |
| `IntentService.Service.Resolve` | src/antisentinel/control/intents.py:16-66 | a success is stored and replayed; a failure changes no revision, message or outbox row |
| `IntentLedger.NextKeepsLedger` | src/antisentinel/persistence/intent_store.py:113-159 | revisions stay numbered 1 to head, message keys unique, only the head pending, at most one question live |
| `IntentLedger.ReplayForever` | src/antisentinel/persistence/intent_store.py:73-89 | a committed message is answered with the same envelope for ever |
| `IntentLedger.OneWriterWins` | src/antisentinel/persistence/intent_store.py:113-134 | of two writers that saw the same revision, the one that comes later is refused |
| `IntentLedger.AskedAtMostThrice` | src/antisentinel/persistence/intent_store.py:139-158 | a user is asked at most three times per intent, with at most one live question and one pending revision |
| `Clarifications.AdvanceKeeps` | src/antisentinel/persistence/intent_store.py:139-147 | rounds never fall, never exceed three, and a paused deadline is never extended |
| `LiveRoutes.FirstExecutionFromDraft` | src/antisentinel/control/live_intent_routes.py:152-166 | an execution is created only for a draft at the requested version, which leaves that status in the same step |
| `LiveRoutes.VersionCountsChanges` | src/antisentinel/control/live_intent_routes.py:67-183 | a plan's version is one more than the number of its status changes, over any run |
| `LiveRoutes.PlanForever` | src/antisentinel/control/live_intent_routes.py:67-183 | the payload never changes and cancelled is absorbing |
| `LiveRoutes.BoundForever` | src/antisentinel/control/live_intent_routes.py:152-166 | an execution is bound to its plan for ever |
| `LiveRoutes.OneRunPerPlan` | src/antisentinel/control/live_intent_routes.py:152-166 | every execution request that is accepted for a plan yields the same run and the same requested version |
| `LiveRoutes.CancelledNeverStarts` | src/antisentinel/control/live_intent_routes.py:152-166 | a draft cancelled before its first execution is never executed |
| `LiveRoutes.SeenIsStillThere` | src/antisentinel/control/live_intent_routes.py:152-156 | between reading a plan and starting it its payload cannot have changed |
| `LiveRoutes.DeliveredOnce` | src/antisentinel/control/live_intent_routes.py:52-65 | a delivery row keeps its request and receipt; only an accepted one may complete |
| `LiveRoutes.RunKeepsRoutes` | src/antisentinel/control/live_intent_routes.py:88-114 | plans and the deliveries that inserted them stay in one-to-one correspondence, and the plan of a delivered cancel is cancelled |
| `LiveRoutes.CancelDelivered` | src/antisentinel/control/live_intent_routes.py:96-113 | whoever delivers a cancel of a plan has that plan cancelled, then and in every later world |
| `LiveRoutes.Gateway.Lookup` | src/antisentinel/control/live_intent_routes.py:52-65 | lookup returns the row's receipt and completes it only once its run has ended |
| `LiveRoutes.Gateway.AcceptRow` | src/antisentinel/control/live_intent_routes.py:88-114 | the acceptance transaction: the delivery together with its plan insert or plan cancel, or nothing |
| `LiveRoutes.Gateway.Submit` | src/antisentinel/control/live_intent_routes.py:67-114 | an existing delivery is returned; otherwise a row is added exactly when the guard and the request admit it |
| `LiveRoutes.Gateway.BeginExecution` | src/antisentinel/control/live_intent_routes.py:125-166 | a run is bound only to an admitted plan of this session, at its version while a draft or as bound before |
| `LiveRoutes.Gateway.FinishExecution` | src/antisentinel/control/live_intent_routes.py:168-183 | the outcome is recorded unless the plan was cancelled or already has it |
| `Dispatch.NextKeepsInv` | src/antisentinel/control/intent_dispatch.py:47-110 | every step of every dispatcher, crash or publication keeps deliveries, receipts and processes consistent |
| `Dispatch.AtMostOneDelivery` | src/antisentinel/control/intent_dispatch.py:47-110 | a revision has at most one delivery of each step, however many dispatchers try and wherever they crash |
| `Dispatch.AcceptedWhileNewest` | src/antisentinel/control/intent_dispatch.py:91-106 | a delivery is added only while its revision is the newest |
| `Dispatch.SupersededStaysQuiet` | src/antisentinel/control/intent_dispatch.py:91-106 | once a newer revision is published, nothing more is delivered for an older one |
| `Dispatch.MustStopIff` | src/antisentinel/control/intent_dispatch.py:54-63 | a dispatcher goes through stop if and only if it handles a read-only correction and saw an active write task |
| `Dispatch.StopBeforeMain` | src/antisentinel/control/intent_dispatch.py:54-69 | such a dispatcher delivers main only after a stop of its revision is recorded as completed |
| `Dispatch.StoppedTaskIff` | src/antisentinel/control/intent_dispatch.py:68-110 | the task that stop stopped is the one seen by the dispatcher of this revision whose stop was accepted first; it is the task this dispatcher saw if and only if the two saw the same |
| `StopRace.OtherTaskStopped` | src/antisentinel/control/intent_dispatch.py:54-110 | a concrete run of two dispatchers in which the second delivers main although only the run the first one saw was ever asked to stop |
| `Dispatch.StopStaysCompleted` | src/antisentinel/persistence/intent_store.py:186-208 | a stop recorded as completed stays so |
| `Dispatch.OneReceipt` | src/antisentinel/control/intent_dispatch.py:96-110 | all dispatches that report success for a revision report the same delivery |
| `Dispatch.RunKeepsRouteTables` | src/antisentinel/control/live_intent_routes.py:88-114 | in every run the plan of a delivered plan request is there, inserted with its one delivery, and the plan of a delivered cancel is cancelled |
| `Dispatch.DeliveredCancelHolds` | src/antisentinel/control/live_intent_routes.py:96-113 | in every run of dispatchers the plan of a delivered cancel is cancelled in that world and in every later one |
| `SkillState.NextKeepsInv` | src/antisentinel/capabilities/runtime_state.py:62-114 | a prepared value is out of date or still as good as when it was prepared, whatever is committed in between |
| `SkillState.RevisionCountsCommits` | src/antisentinel/capabilities/runtime_state.py:70-114 | the revision and the saved records count exactly the commits that neither repeat, conflict nor fail to save |
| `SkillState.DisclosureWithinBudget` | src/antisentinel/capabilities/runtime_state.py:89-114 | disclosed text never exceeds the cumulative budget |
| `SkillState.IdentityStays` | src/antisentinel/capabilities/runtime_state.py:62-87 | an active skill keeps its version and its instructions |
| `SkillState.SecondCommitConflicts` | src/antisentinel/capabilities/runtime_state.py:70-114 | two values prepared at the same revision cannot both be committed |
| `SkillState.SavedAgrees` | src/antisentinel/capabilities/runtime_state.py:116-125 | the last saved record is what a snapshot would say, but for the selected skill |
| `SkillState.SavedSelectionIff` | src/antisentinel/capabilities/runtime_state.py:75-85 | the saved selection equals the one in memory if and only if a reference was disclosed, nothing was selected, or the same skill was |
| `SkillState.SecondActivationDiffers` | src/antisentinel/capabilities/runtime_state.py:75-85 | a concrete second activation: the record names the new skill, memory keeps the first |
| `SkillRestore.RestoreOwnSnapshot` | src/antisentinel/capabilities/tools.py:92-120 | restoring a runtime's own snapshot rebuilds it, and a snapshot of the result is the same record |
| `SkillRestore.FailedRestoreIff` | src/antisentinel/capabilities/tools.py:95-120 | a record is restored completely or not at all, in every runtime, if and only if its revision is a number or something it names does not load; any other record is never restored |
| `SkillRestore.MalformedRestoreIff` | src/antisentinel/capabilities/tools.py:95-120 | in one runtime a record whose revision is no number changes nothing if and only if its release is another one, something it names does not load, or its content is there already |
| `SkillRestore.FailedRestoreChanges` | src/antisentinel/capabilities/tools.py:113-117 | a concrete checkpoint whose malformed revision makes restore fail after it emptied the runtime |
| `SkillResume.RestoreKeepsInvIff` | src/antisentinel/capabilities/tools.py:95-120 | a restore in the middle of prepares and commits keeps their invariant if and only if the record fits the budget, lists the owners of its references, repeats the last saved record, and every prepared value is older or would have passed its checks against the record |
| `SkillResume.SafeRestoresKeepBudget` | src/antisentinel/capabilities/tools.py:95-120 | however prepares, commits and such restores interleave, disclosed text never exceeds the budget |
| `SkillResume.RestoreBeyondBudget` | src/antisentinel/capabilities/tools.py:107-117 | a record that names one reference longer than the budget is restored all the same |
| `SkillResume.PreparedBeforeRestore` | src/antisentinel/capabilities/runtime_state.py:101-114 | a value prepared before a restore to the same revision number is accepted after it and exceeds the budget |
| `SkillRuntime.RuntimeState.PrepareActivation` | src/antisentinel/capabilities/runtime_state.py:62-68 | release and identity are checked against the active skills |
| `SkillRuntime.RuntimeState.PrepareDisclosure` | src/antisentinel/capabilities/runtime_state.py:89-99 | release, activity and budget are checked, repeated references are idempotent |
| `SkillRuntime.RuntimeState.Commit` | src/antisentinel/capabilities/runtime_state.py:70-114 | the state changes exactly when the revision matches and the record was saved first |
| `SkillRuntime.Tools.Load` | src/antisentinel/capabilities/tools.py:128-143 | a load adds one active skill with its content at the next revision, or changes nothing |
| `SkillRuntime.Tools.ReadReference` | src/antisentinel/capabilities/tools.py:145-165 | a read adds one reference of an active skill within the budget at the next revision, or changes nothing |
| `SkillRuntime.Tools.Restore` | src/antisentinel/capabilities/tools.py:95-120 | restore replaces state and contents as specified, half-way failure included |
| `ResourceCache.Cache.GetOrLoad` | src/antisentinel/capabilities/loader.py:52-67 | the answer is that of loading without a cache; a hit moves its entry to the recent end, a miss drops the shortest sufficient prefix, an error changes nothing |
| `ResourceCache.Cache.MakeRoom` | src/antisentinel/capabilities/loader.py:61-63 | the least recently used entries leave, and no fewer would have made room |
| `ResourceCache.TouchKeeps` | src/antisentinel/capabilities/loader.py:53-56 | a hit keeps the size counter, the limit and the recency order |
| `ResourceCache.MissKeeps` | src/antisentinel/capabilities/loader.py:57-67 | a miss keeps the size counter equal to the sum and within the limit, and the entries the most recently answered keys in order |
| `ResourceCache.SuffixAfterUse` | src/antisentinel/capabilities/loader.py:45-67 | using a key keeps what is cached a suffix of the recency order of the whole history |
| `Sessions.NextKeepsReservations` | src/antisentinel/entry/application.py:262-329 | the reservation set is exactly what calls in progress hold, each incident by one call |
| `Sessions.OnlyHolderReleases` | src/antisentinel/entry/application.py:266-329 | a reservation ends only by its holder; a rejected call never releases another's |
| `Sessions.GrantsOverLiveIff` | src/antisentinel/entry/application.py:266-274 | a reservation is granted over a live session if and only if a session registered after the caller's scan is still live |
| `Sessions.GrantOverLiveNeedsHolder` | src/antisentinel/entry/application.py:266-274 | that takes another call that held the incident at the scan |
| `Sessions.OneLiveSession` | src/antisentinel/entry/application.py:262-329 | at most one live session per incident in every run without such a grant |
| `Sessions.OneLiveUnlessScannedReserved` | src/antisentinel/entry/application.py:262-329 | and therefore in every run in which no call scans an incident while another one holds its reservation |
| `Sessions.SecondLiveIff` | src/antisentinel/entry/application.py:314-315 | a step gives an incident its second live session if and only if it registers one where another is live |
| `Sessions.SecondLiveSession` | src/antisentinel/entry/application.py:314-329 | when a call that was granted such a reservation lists and registers at once, its incident has two live sessions |
| `Sessions.OutdatedGrant` | src/antisentinel/entry/application.py:262-329 | a concrete interleaving of two calls that reaches such a grant |

## Left out

- HTTP routes, the command line, daemon wiring, environment configuration and the scripts: no invariant of their own.
- `bootstrap.py` and `git_reader.py`: plug-in assembly and record parsing would add easier members of the same kind.
- `multilang_parser.py`: what its patterns and its syntax trees find in a file enters as a parameter; which edges follow from it is modelled in `TextEdges`.
- `normalize_semantics`: a comparison helper that drops time stamps and hit counts.
- Plan generation, `validate_plan` and the plan runtime: parameters of `LiveRoutes.Gateway`; the report's status may be any text.
- Generations.InsertIsUnion: leaves out that INSERT OR REPLACE also deletes a row that collides on a secondary unique key; for what builds stage there is no such row, as BuildHistories.StagedSecondaryKeysFollow shows.
- Generations.Publish: does not check foreign keys on nodes; what builds publish never violates them, as BuildHistories.BuildsKeepHistory shows.
- JSON codecs, canonical text and time-stamp shapes; gap reasons are rendered in English.
- Stored answer and status payloads of deliveries; a delivery keeps its request and receipt.
- Events, counters, recognition failures and trace contexts, except how often a clarification was requested.
- Python's notion of white space beyond space, tab and line ends.
- Scan of sessions as one step: a session that appears during the scan belongs to those registered after it.
- Negative `max_chunk_lines`, and files whose chunk loop does not end: their parse returns nothing, so no build contains them.
- BuiltSources.BuiltChunksLoad: assumes that a tree listing names a path once, as a commit does; with a path listed twice the last file row would stay.
- Columns of rows that no check reads: sizes, columns, basis texts, line numbers of edges and chunks.
- Separator characters inside digested texts: a digest is injective on the values it covers.
- CodeMapStore.Store.ClaimCheck: does not model the tie-break by repository id between equal due times, because the schedule treats such repositories alike.
- Relations.ResolveAllIsGood: says nothing about the order of the edges, which the source sorts by line and digest.
- Sessions.OneLiveSession: covers sessions created by `start_session` only; restored and intent-created ones register elsewhere.
- Dispatch.StoppedTaskIff: a task that becomes active only after a dispatcher entered is not stopped by it, because the source reads the active task once.
- IntentService.Service.Resolve: runs as one step; interleaved readers and writers are covered by IntentService.CommitKeepsStored and IntentLedger.OneWriterWins.
