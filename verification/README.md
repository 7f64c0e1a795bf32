# Persistence and sync protocol of the realtime editor

A Dafny model of how the realtime collaborative editor keeps one document consistent between
browsers, gateway processes, Redis and MongoDB, with proofs about whole runs. `dafny verify
dfyconfig.toml` checks everything.

## How it is built

Every operation that changes state in the repository is a method of a class with the same fields, and its
`ensures` equates the new state with a function on values (`Applied`, `Compacted`, `Handle`, `Rotated`, ...).
A run is a sequence of actions folded by a total `Apply` built from the same functions; an action that is not
possible leaves the state alone. The theorems are about these runs, so they hold for every interleaving.

| file | what it covers |
|---|---|
| `Yjs.dfy` | documents as sets of items, state vectors, diffs |
| `Redis.dfy`, `Lock.dfy`, `WsRate.dfy`, `MemoryCache.dfy` | expiring keys, the lock, the message limiter, the in-process cache |
| `UpdateLog.dfy`, `Replay.dfy` | the append-only log and the paged replay loop |
| `DocumentStore.dfy` | `DocumentsService` and `DocumentJobsService`: content, version, log, snapshots, two caches |
| `Writers.dfy` | interleaved `applyYUpdate` calls, replays, compactions, manual snapshots and rollbacks, one database or Redis call at a time |
| `Losses.dfy` | what these interleavings do to the content: when no update is lost, when a replay cannot exceed the content |
| `Cluster.dfy`, `LateFills.dfy` | any number of processes with their own memory caches over one Redis copy and one database; cache fills that come late |
| `SingleProcess.dfy` | with one process and no late cache fill the caches never lag, so its initial states are always recent |
| `SnapshotNumbers.dfy` | which committed updates get a periodic snapshot in these interleavings |
| `Gateway.dfy`, `Admission.dfy` | the `y-update` handler; over streams, whom the limiter lets through and which messages are accepted |
| `Batches.dfy`, `OfflineQueue.dfy` | batches, pruning, the offline queue |
| `Provider.dfy` | the client: socket emits, REST queue, timer, overlapping flushes |
| `Convergence.dfy`, `Echoes.dfy` | clients, gateways and everything in flight between them as one transition system, and why it comes to rest |
| `Coverage.dfy`, `Stragglers.dfy` | which edits reach which client and the store, when all clients agree, and runs in which one is left behind until it fetches |
| `Migrations.dfy`, `JwtKeys.dfy` | the migration runner and signing-key rotation |

## Assumptions

- A Yjs document, and equally an update, is a finite set of insertions `(client, clock)` and deletions.
  `Y.applyUpdate` and `Y.mergeUpdates` are union. The `update` event fires only when the document gains
  something and carries exactly the gain. A state vector holds the gap-free prefix per client.
- gzip, base64 and JSON are the identity; bytes that `gunzipSync` rejects are `Garbled`; sha256 is injective.
- Time is an integer that does not decrease (milliseconds, or seconds for keys). A Redis key is readable up
  to and including its expiry instant.
- Each Redis command, each MongoDB call and each MongoDB transaction is atomic.
- Random values (lock tokens, secrets) are parameters; where a proof needs it, lock tokens are distinct.

## What the code does not do, although it may look so

- The write lock (comment at `api/src/documents/documents.service.ts:182`) does not serialise writers, because
  the content is loaded before the lock is taken, and replays and rollbacks do not take it at all.
  `OverlapLosesUpdate` is a run of two calls and nothing else in which two accepted updates leave only the second
  one in the content, and
  `ReplayDropsUpdate` one in which the snapshot job drops an update committed while it replays. `NothingLostIff`
  is the exact condition: whatever replaces the content has to contain it.
- The limiter admits up to 2N - 1 messages in one second, not N (comment at `api/src/common/ws-rate.ts:3`);
  both the bound and its tightness are proved, and that N itself is the bound exactly for N <= 1 (`AtMostLimitIff`).
- The replay loop never ends once a full page of consecutive log entries cannot be decoded; `ReplayEndsIff`
  is the exact condition.
- The snapshot job overwrites the content without touching a cache, so reads may lag by both times to live
  together. Without jobs they lag by the memory time to live alone.
- An initial state may come from an outdated cache, and then its client misses what it omits
  (`StaleJoinDiverges`). `AlwaysCoveredIff` says which initial states are harmless: those that contain what was
  neither in flight at the join nor emitted or served since. One that contains what was stored at the join is
  harmless as long as commits lose nothing and processes have subscribed (`RecentIsEnough`), and after a join with
  nothing in flight what was queued offline for the client's user and the initial state together have to contain it
  (`QuietJoinIff`). With one process, no jobs and no late cache fill all are recent (`InitialStatesAreRecent`).
- A process subscribes to the document's channel only after it has sent the initial state
  (`api/src/ws/ws.gateway.ts:248`); its first client misses what others publish in between
  (`LateSubscriptionDiverges`).
- The offline queue (`api/src/ws/ws.gateway.ts:569`, emitted at 215) repairs the first of these for a user who was
  not marked online when the update was flushed; a user who was, on another device say, has nothing queued, and
  neither has a client that has joined already. Otherwise such a client gets the operation if and only if it is
  served it anew (`CaughtUpIffFetched`): by a `y-init` after a reconnect (`web/src/lib/yjsProvider.ts:131-134`), the
  load of a page (92-104) or a resync on coming online (368-389). All of these, the offline queue included, are
  fetches in the model.
- A read that fills the caches late can hide a write from the very process that made it (`LateFillHidesWrite`);
  `WriterCurrentIff` is the exact condition, and `LateBoundedStaleness` bounds how old any answer can be then.
- A new signing key's id is derived from the number of keys, so it can overwrite the retiring key
  (`FifthRotationOverwrites`); `RetiringKeySurvivesIff` is the exact condition.
- The memory cache does not evict the empty key; its bound fails exactly when the maximum is 0 and that key is set
  or stored (`SizeBoundedAfterSet`).
- Pruning can discard pending updates when `BATCH_MS` exceeds `IDLE_PRUNE_MS`; `BatchesWholeIff`.
- The size limit of a document only logs; it refuses nothing, and so is not in the model.

## Model

| member | source | states |
|---|---|---|
| Coverage.StepReaches | api/src/ws/ws.gateway.ts:543-574 | For every step from any reachable state: an operation is in a joined client's document or on its way to it afterwards exactly when it was before and it is not published past the client's process, or some client emits it in the step, or the server answers it to the client, as its `y-init` or to a fetch. Batching, commits, fan-out, relays, broadcast-channel copies and overtaking lose and add nothing |
| Coverage.DueIsAtRest | api/src/ws/ws.gateway.ts:180-227 | What a joined client without initial state lacks and nothing will bring it is exactly what was at rest when it entered its room, and what was published past it since, less what any client has emitted or it has fetched since |
| Coverage.AlwaysCoveredIff | api/src/ws/ws.gateway.ts:214-248 | In every run, at every point, each initialised client lacking an edit has a client emit, batch, commit or message on its way that carries it: if and only if every `y-init` contained what was due to its client and nothing was published past an initialised client, whose process had not subscribed, that nothing else was bringing it. Commits that overwrite each other do not matter |
| Coverage.RecentIsEnough | api/src/ws/ws.gateway.ts:180-219 | It suffices, whatever happens between join and `y-init`, that each `y-init` contains what was stored when its client joined, each commit contains what it overwrites, and updates are published when the processes of joined clients have subscribed; then nothing stored is lost either |
| Coverage.QuietJoinIff | api/src/ws/ws.gateway.ts:180-227 | After a join with nothing in flight, what was queued offline for the user and then an immediate `y-init` keep coverage if and only if together they contain everything stored that the client does not have |
| Coverage.AlwaysStoredIff | api/src/documents/documents.service.ts:150-198 | In every run each edit is stored or still to be committed at every point, if and only if each commit stores, or leaves still to be committed, what it overwrites |
| Coverage.RunsConverge | web/src/lib/yjsProvider.ts:57-72 | Wherever a run meeting the condition of `AlwaysCoveredIff` settles, every client's document is the initial content joined with every edit, even where the store has lost some to overlapping commits |
| Coverage.RecentRunsConverge | api/src/ws/ws.gateway.ts:214-227 | Under the conditions of `RecentIsEnough` the stored content is the same document too |
| Coverage.LeftBehindUntilFetch | web/src/lib/yjsProvider.ts:92-161 | A client that lacks an operation all others have, with nothing bringing it, stays so through every continuation that does not make the operation anew, whatever edits, joins, commits and messages it has, as long as no fetch of the client serves it; once one does, the operation is in its document or in a message to it ever after |
| Coverage.CaughtUpIffFetched | web/src/lib/yjsProvider.ts:92-161 | So when no messages to clients remain, the client has the operation if and only if a reconnect, load, resync or delivery from the offline queue has served it |
| Coverage.SiblingsGetGain | web/src/lib/yjsProvider.ts:69-86 | What a tab gains, by an edit or from the server, is sent to its sibling tabs, and is in a sibling's document once it receives it, without the server |
| Stragglers.StaleJoinDiverges | api/src/documents/documents.service.ts:106-112 | A run of two processes, every step recent, everything settled and the update of client 0 stored; then a join on the process whose memory copy is older, by a user with nothing queued offline: `getYState` gives exactly that copy there, and in every continuation the client gets the update only by being served it anew |
| Stragglers.LateSubscriptionDiverges | api/src/ws/ws.gateway.ts:214-248 | A run in which initial states and commits are all recent, both clients are joined and initialised, and the first process, the only subscriber, has stored and is about to publish the update of its client: once it has, in every continuation, the second process's subscription included, the other client gets the update only by being served it anew |
| Convergence.StepKeepsKnown | web/src/lib/yjsProvider.ts:154-161 | Nothing circulates anywhere but the initial content and local edits, and rooms hold only known clients |
| Convergence.SettledIffIdle | api/src/ws/ws.gateway.ts:543-587 | The protocol cannot get stuck: no step but an edit or a fetch is left exactly when nothing is in flight, every client is joined and initialised and every process has subscribed |
| Echoes.EmitsAreBounded | web/src/lib/yjsProvider.ts:57-72 | Over any run, client emits, echoes of remote updates included, are at most clients times distinct operations |
| Echoes.StepsLeftDrops | web/src/lib/yjsProvider.ts:154-161 | Every step other than an edit or a fetch lowers an explicit measure over what clients lack and what is at each stage of the pipeline |
| Echoes.EchoesDieOut | web/src/lib/yjsProvider.ts:57-86 | Once editing and fetching stop, after any run, no continuation is longer than that measure |
| Writers.LogIsCommitOrder | api/src/documents/documents.service.ts:184-212 | In every interleaving of calls, jobs, rollbacks and crashes, logged numbers strictly increase in commit order, are at most the version, and the log is exactly the committed updates above the compaction floor |
| Writers.CommitEffect | api/src/documents/documents.service.ts:188-204 | In such a run a commit never aborts on a duplicate number; it appends to log and history alike and stores base joined with update |
| Writers.UninterruptedCallIsApplied | api/src/documents/documents.service.ts:149-212 | The steps of a call that nothing interrupts, whoever holds the lock: they commit exactly when `DocumentsService.ApplyYUpdate` answers without an error, change the database exactly as it does, leave a free lock free, and behind a live lock touch neither database nor lock while the answer is a conflict |
| Writers.TakingOwns | api/src/documents/documents.service.ts:184 | In every run, whoever takes the lock owns it, under a token nobody else has, for 5 seconds |
| Writers.OthersAreLockedOut | api/src/documents/documents.service.ts:184-212 | While a call owns the lock, in every continuation in which it does not release it, crashes included, nobody else gets in |
| Writers.CompactLeaves | api/src/documents/documents.service.ts:206-209 | In every run, after a call numbered n compacts exactly the entries above n - keep are left, and the log is within keep entries plus what was committed since |
| Writers.UninterruptedReplay | api/src/jobs/document-jobs.service.ts:57-84 | The step-level replay, when nothing interrupts it, regenerates the content exactly as `DocumentJobsService.ProcessSnapshot` does, however many pages it reads |
| Writers.UninterruptedSnapshot | api/src/documents/documents.service.ts:259-269 | The three calls of a manual snapshot in a row equal `DocumentsService.CreateManualSnapshot` |
| Writers.UninterruptedCompaction | api/src/jobs/document-jobs.service.ts:46-55 | The two calls of the compaction job in a row equal `DocumentJobsService.ProcessCompact` |
| SnapshotNumbers.PeriodicSnapshots | api/src/documents/documents.service.ts:199-203 | In every interleaved run no two snapshots share a number, and a committed update has a snapshot under its number if and only if that is a multiple of `DOC_SNAPSHOT_EVERY`; manual snapshots have numbers of their own |
| SnapshotNumbers.PeriodicSnapshotIsContent | api/src/documents/documents.service.ts:198-203 | In every run such a snapshot holds exactly the content its commit stored, and a commit adds no other |
| Losses.NothingLostIff | api/src/documents/documents.service.ts:150-198 | In every run, the content joins every committed update at every point if and only if every commit, every overwrite by a replay and every rollback stores a document that contains the content of that moment |
| Losses.SerialWritersLoseNothing | api/src/documents/documents.service.ts:150-212 | In particular when no commit falls between another call's load and its commit and nothing else replaces the content; dropped updates and log then join to the content |
| Losses.OverlapLosesUpdate | api/src/documents/documents.service.ts:150-184 | The steps of two calls, and no others: both load before either locks, and the second takes the lock after the first has committed and released it, its base now out of date. When it commits the content is the second update alone, so equality holds exactly when the second contains the first; a rebuild brings it back if two updates are kept |
| Losses.ReplayDropsUpdate | api/src/jobs/document-jobs.service.ts:62-82 | The steps of one call between the last page of a replay and its overwrite: no writers overlap, yet the overwrite drops the update from the content, and a rebuild then exceeds the content |
| Losses.ContentIsJoinOfSome | api/src/documents/documents.service.ts:149-212 | In every interleaving in which only writers replace the content, it is the join of a subset of the committed updates that includes the last |
| Losses.ContentWithinHistory | api/src/documents/documents.service.ts:149-251 | In every run, overlaps, replays and rollbacks included, content, loaded bases, replays and snapshots hold only committed updates |
| Losses.RebuildWithinContentIff | api/src/jobs/document-jobs.service.ts:57-84 | In every run, a rebuild stays within the content at every point if and only if whatever replaces the content contains the retained log of that moment |
| Losses.RebuildWithinContent | api/src/jobs/document-jobs.service.ts:57-84 | In particular with replays among the steps, read page by page, when no commit falls into another's window nor between the last page of a replay and its overwrite, and nothing is rolled back; the content never exceeds what was committed |
| Losses.PageEffect | api/src/jobs/document-jobs.service.ts:66-77 | A page read, with any commits and compactions between the pages, leaves the replay with everything retained up to its cursor joined, and with everything retained once it ends |
| Losses.RebuildExactIff | api/src/documents/documents.service.ts:325-349 | While nothing is lost, a rebuild gives exactly the content if and only if the retained log covers the updates compaction dropped |
| Losses.RebuildRecoversAll | api/src/documents/documents.service.ts:206-209 | While the version is within `DOC_UPDATE_KEEP` nothing was dropped, and a rebuild yields every committed update, even those the content has lost |
| Cluster.BoundedStaleness | api/src/documents/documents.service.ts:106-147 | In every run over any number of processes, what `getYState` answers was stored within the last Redis plus memory time to live |
| Cluster.BoundIsReached | api/src/jobs/document-jobs.service.ts:57-84 | A read, a snapshot job, and a read on another process at the end of the Redis copy's life: when the memory copy ends its life the answer is exactly that old |
| Cluster.StalenessWithoutJobs | api/src/documents/documents.service.ts:221-227 | Without jobs or damage the bound is the memory time to live alone |
| Cluster.WriterReadsItsWrite | api/src/documents/documents.service.ts:221-251 | The process that made the latest write, rollback or repair always answers with the stored content |
| Cluster.SharedCopyStaysCurrent | api/src/documents/documents.service.ts:221-227 | Without jobs or damage the shared Redis copy is always the stored view |
| LateFills.WriterCurrentIff | api/src/documents/documents.service.ts:115-146 | In every run in which reads fill the caches in later steps, the copies that the latest writer's process answers from are current at every point if and only if each fill of one of them stores what the database holds at that moment |
| LateFills.LateFillHidesWrite | api/src/documents/documents.service.ts:122-145 | A read that finds the database on process 0, a write on process 0, and the read's fill, nothing else: the process answers with the content from before its own write |
| LateFills.TimelyWriterReadsItsWrite | api/src/documents/documents.service.ts:221-227 | While fills are timely, the latest writer's process answers with the stored view, however reads and fills interleave with everything else |
| LateFills.LateBoundedStaleness | api/src/documents/documents.service.ts:106-147 | In every run over any number of processes in which no fill comes more than a given delay after its read, what `getYState` answers was stored within the last Redis plus memory time to live plus twice the delay |
| SingleProcess.CopiesCurrentIff | api/src/documents/documents.service.ts:106-147 | In every run of one process without jobs or damage, with cache fills as steps of their own, both cached copies are the stored view at every point if and only if each fill stores what the database holds at that moment |
| SingleProcess.AnswersAreCurrent | api/src/documents/documents.service.ts:106-147 | Then every answer of `getYState` is the stored view |
| SingleProcess.WholesArePunctual | api/src/documents/documents.service.ts:106-147 | In particular in every run whose reads are one step |
| SingleProcess.InitialStatesAreRecent | api/src/ws/ws.gateway.ts:217-227 | So whatever copy the one process answers a join from, with no late fill, contains what was stored at the join, as `RecentIsEnough` asks |
| Cluster.NoRepairWithoutDamage | api/src/documents/documents.service.ts:313-324 | Checksum and vector agree with the state in every stored record of every run, so `validateAndRepair` never rebuilds undamaged content |
| Cluster.DamageIsRepaired | api/src/documents/documents.service.ts:314-356 | In every run, when the stored bytes are replaced under their checksum, the next repair stores the join of the decodable log and serves it, exactly unless they are the bytes they were |
| Cluster.SnapshotRoundTrip | api/src/documents/documents.service.ts:239-281 | Manual snapshot, any run, rollback: the process serves exactly the snapshotted view, version and log are untouched, and a repair follows exactly when the snapshotted checksum did not match |
| Cluster.SnapshotsAreKept | api/src/database/repositories/document-snapshot.repo.ts:10-12 | No operation of any run changes or removes a snapshot |
| DocumentStore.DocumentsService.GetYState | api/src/documents/documents.service.ts:106-147 | Memory, then Redis, then database decide the answer, undecodable content is an error, and the caches are filled accordingly |
| DocumentStore.DocumentsService.ApplyYUpdate | api/src/documents/documents.service.ts:149-231 | Every outcome (invalid update, busy lock, aborted transaction, success) and the exact database, cache and lock state after it |
| DocumentStore.DocumentsService.RollbackToSnapshot | api/src/documents/documents.service.ts:239-251 | The content becomes the snapshot's, both caches are empty; an unknown snapshot changes nothing |
| DocumentStore.DocumentsService.CreateManualSnapshot | api/src/documents/documents.service.ts:254-281 | The stored record is kept under the next version number; without content nothing changes |
| DocumentStore.DocumentsService.DiffSnapshots | api/src/documents/documents.service.ts:284-311 | The patch applied to the first snapshot gives the join of both, and the second itself exactly when it contains the first; it is part of the second, and repeats no insertion of a gap-free first |
| DocumentStore.DocumentsService.ValidateAndRepair | api/src/documents/documents.service.ts:314-356 | Rebuilds exactly when there is content whose checksum is missing or differs; the content is then the join of the decodable log, and the caches hold it |
| DocumentStore.DamageIsDetected | api/src/documents/documents.service.ts:317-324 | A record needs repair if and only if its bytes are not those its checksum was taken of, undecodable ones included |
| DocumentStore.NeedsRepairIff | api/src/documents/documents.service.ts:323-324 | For any record: exactly when it has no checksum, or one of other bytes |
| DocumentStore.TrimmedIs | api/src/documents/documents.service.ts:206-209 | Compaction after commit n keeps exactly the entries above n - keep |
| DocumentStore.CompactedIs | api/src/jobs/document-jobs.service.ts:46-55 | The compaction job keeps exactly the entries among the last keep numbers, and so at most keep |
| DocumentStore.DocumentDatabase.Transact | api/src/database/transaction.ts:3-14 | Version, log entry, content and periodic snapshot change together, or nothing does when the number is already logged |
| DocumentStore.DocumentDatabase.IncVersion | api/src/database/repositories/document.repo.ts:74-79 | The next version, or 0 and no change when the record is gone |
| DocumentStore.DocumentJobsService.ProcessCompact | api/src/jobs/document-jobs.service.ts:46-55 | Drops exactly the entries at least `keep` below the latest number |
| DocumentStore.DocumentJobsService.ProcessSnapshot | api/src/jobs/document-jobs.service.ts:57-84 | The content becomes the join of the decodable log with its vector and checksum; nothing else changes |
| UpdateLog.DocumentUpdateRepository.Append | api/src/database/repositories/document-update.repo.ts:10-21 | A new number goes to its place in order; a number already present is refused |
| UpdateLog.DocumentUpdateRepository.CompactUpTo | api/src/database/repositories/document-update.repo.ts:32-34 | Drops exactly the leading entries numbered up to the given number; every entry kept is numbered above it |
| UpdateLog.DocumentUpdateRepository.ListAsc | api/src/database/repositories/document-update.repo.ts:48-55 | The entries directly after all those numbered up to the given number, each numbered above it, at most the limit, and short of it only when nothing more follows |
| UpdateLog.InsertedKeepsOrder | api/src/database/schemas/document-update.schema.ts:29 | Appending anywhere keeps the log strictly ascending and adds exactly one number |
| UpdateLog.AfterTwice | api/src/database/repositories/document-update.repo.ts:32-34 | Two compactions are one, up to the higher number |
| UpdateLog.DecodedSplits | api/src/database/repositories/document-update.repo.ts:32-34 | What a log decodes to is the join of its dropped and its retained part |
| Replay.ReplayLog | api/src/jobs/document-jobs.service.ts:62-77 | The nested loops end and compute the join of all decodable entries above number 0 |
| Replay.ReplayIsOneFold | api/src/documents/documents.service.ts:330-344 | For every page size and any undecodable entries: whenever the loop ends its result is one fold over the log |
| Replay.ReplayEndsIff | api/src/documents/documents.service.ts:333-344 | The loop ends if and only if every full page of consecutive entries holds a decodable one |
| Replay.DeadPageIsAWall | api/src/jobs/document-jobs.service.ts:69-76 | The cursor never gets past the start of a full page of undecodable entries |
| Yjs.DiffCompletes | api/src/ws/ws.gateway.ts:353-361 | The diff against my vector gives exactly my state joined with the served one, gaps or not |
| Yjs.DiffIsMinimalIffGapFree | api/src/ws/ws.gateway.ts:357-359 | The diff never repeats an insertion I have, whatever is served, if and only if my document has no gap |
| Yjs.PatchReachesTarget | api/src/documents/documents.service.ts:301-302 | Snapshot A plus the patch equals B if and only if A is within B |
| Yjs.VectorDeterminesInserts | api/src/documents/documents.service.ts:164-165 | Gap-free documents have the same vector exactly when they have the same insertions |
| Gateway.WsGateway.OnYUpdate | api/src/ws/ws.gateway.ts:271-321 | Rate limit, room check, deduplication, ordering, size and validity in this order, with every key and the batch as they are afterwards |
| Gateway.DedupExact | api/src/ws/ws.gateway.ts:288-295 | In any stream over any documents and users a message passes deduplication exactly when, since each earlier message with its id on the document, a silence of more than 60 s was broken |
| Gateway.OrderExact | api/src/ws/ws.gateway.ts:297-305 | A numbered message is refused exactly when its number does not exceed the one its user last passed with, or 0 after 300 s |
| Gateway.NumbersFailOnlyAfterPause | api/src/ws/ws.gateway.ts:297-305 | One user's passing numbers fail to increase only across a pause of more than 300 s between passing messages |
| Gateway.OrderlyStreamPasses | web/src/lib/yjsProvider.ts:211-221 | A sender with fresh ids and increasing positive numbers is never refused as duplicate or out of order |
| Admission.RateLimitedIff | api/src/ws/ws.gateway.ts:277-281 | In any stream exactly the user's own messages decide whether a message is rate limited |
| Admission.ModestUserIsServed | api/src/ws/ws.gateway.ts:277-281 | A user with fewer messages than the limit in the second before is never limited, whatever others send |
| Admission.SilentUserIsServed | api/src/common/ws-rate.ts:7-9 | In particular a user silent for over a second, however often limited before |
| Admission.UserIsBounded | api/src/common/ws-rate.ts:4-10 | In any stream at most 2N - 1 messages of a user get past the limiter in any second |
| Admission.OutcomeIff | api/src/ws/ws.gateway.ts:283-321 | A message past the limiter is rejected exactly when malformed or not from the room; past deduplication and ordering it is accepted exactly when it is within the size and valid, and too large exactly above the limit |
| Admission.OrderlySenderIsAccepted | api/src/ws/ws.gateway.ts:271-321 | A joined sender within rate and size, with fresh ids and increasing positive numbers, is accepted |
| Admission.BatchHoldsAccepted | api/src/ws/ws.gateway.ts:543-555 | Until a flush the batch of a document holds exactly its accepted updates in order |
| Admission.OrderlySenderIsBatched | api/src/ws/ws.gateway.ts:318-320 | The update of an accepted message is the last one pending |
| Gateway.WsGateway.FlushDoc | api/src/ws/ws.gateway.ts:557-587 | The batch is emptied first; its join is applied and emitted, or emitted to nobody when the service refuses |
| Gateway.WsGateway.PruneIdle | api/src/ws/ws.gateway.ts:589-594 | Exactly the batches idle for longer than the limit are dropped |
| Gateway.WsGateway.OnYSync | api/src/ws/ws.gateway.ts:343-366 | The answer is part of the served document, brings a client that sent its vector exactly to its state joined with the served one, and repeats none of its insertions when it has no gap |
| Batches.RunIsIntact | api/src/ws/ws.gateway.ts:543-570 | With due timers fired before pruning and `BATCH_MS <= IDLE_PRUNE_MS`, flushed batches in flush order followed by the pending updates are exactly the accepted updates |
| Batches.RunIsTimed | api/src/ws/ws.gateway.ts:550-563 | The timer is set exactly while updates are pending, and is due within one batch delay of the latest |
| Batches.IdleSinceLastAccept | api/src/ws/ws.gateway.ts:543-594 | In every run an entry is idle since its latest accepted update, and pruning takes it exactly when that is longer ago than the limit |
| Batches.BatchesWholeIff | api/src/ws/ws.gateway.ts:589-594 | With due timers fired first, no run loses an accepted update if and only if `BATCH_MS <= IDLE_PRUNE_MS` |
| OfflineQueue.Queue.Push | api/src/ws/ws.gateway.ts:534-539 | Push left, cap at 1000, a day to live |
| OfflineQueue.Queue.Flush | api/src/ws/ws.gateway.ts:501-514 | Emits the whole live list, oldest first, and leaves it empty |
| OfflineQueue.ListIsBacklog | api/src/ws/ws.gateway.ts:534-539 | Over any run the list is the last 1000 events pushed since the last flush and the last pause of over a day |
| OfflineQueue.FlushEmitsBacklog | api/src/ws/ws.gateway.ts:501-514 | A flush emits exactly the last min(n, 1000) of them in arrival order |
| OfflineQueue.DeliveredOnceInOrderIff | api/src/ws/ws.gateway.ts:501-541 | Over a run every event is emitted once and in order, or is in the list, if and only if no push found the list full and no call followed a pause of over a day with events waiting |
| Provider.SimpleYProvider.ApplyUpdate | web/src/lib/yjsProvider.ts:57-72 | A change without gain does nothing; a gain is emitted with the next number when connected, else queued |
| Provider.SimpleYProvider.BeginFlush | web/src/lib/yjsProvider.ts:283-299 | Clears the timer, empties the queue and posts the join of all of it |
| Provider.SimpleYProvider.FailPost | web/src/lib/yjsProvider.ts:309-328 | The failed post's join is queued again with the batch timer set; an unauthorised answer makes the editor read-only |
| Provider.SimpleYProvider.RestoreQueue | web/src/lib/yjsProvider.ts:445-453 | Saved updates are appended in order and the timer stays as it is |
| Provider.SimpleYProvider.Reload | web/src/lib/yjsProvider.ts:102-107 | A successful load or resync applies the state like any change and lets the editor write again |
| Provider.ReadOnlyIffUnauthorised | web/src/lib/yjsProvider.ts:309-324 | In every run the editor is read-only exactly from an unauthorised post until the next successful load or resync |
| Provider.QueueConserves | web/src/lib/yjsProvider.ts:274-329 | Over any interleaving of changes, overlapping flushes, failures and restores, queue, posts in flight and delivered updates join to exactly what was ever queued or restored |
| Provider.TimerIffEnqueued | web/src/lib/yjsProvider.ts:274-286 | The batch timer is set exactly while the queue holds an enqueued update; restored ones alone do not set it |
| Provider.NothingIsEmittedTwice | web/src/lib/yjsProvider.ts:57-68 | In every run each emit carries only what the document just gained, so no operation goes to the socket twice |
| Provider.EveryChangeIsSent | web/src/lib/yjsProvider.ts:57-72 | Every item of the local document was emitted or is in the care of the queue; emits are numbered 1, 2, 3, ... and none is empty |
| Lock.LockService.TryAcquire | api/src/common/lock.service.ts:8-14 | Succeeds exactly when no unexpired value is stored, and then stores the token with its expiry |
| Lock.LockService.Free | api/src/common/lock.service.ts:16-28 | Deletes the key exactly when it still holds this token unexpired |
| Lock.MutualExclusion | api/src/common/lock.service.ts:8-28 | In every run the periods in which any two grants were in force are disjoint, and a live key belongs to the latest grant |
| Lock.GrantTokensDistinct | api/src/common/lock.service.ts:9 | With tokens never drawn twice, no two grants share a token |
| Lock.StaleReleaseIsHarmless | api/src/common/lock.service.ts:16-28 | A release by any but the latest holder changes nothing |
| MemoryCache.MemoryCacheService.Get | api/src/common/memory-cache.service.ts:11-19 | The live value or nothing; an expired entry is deleted |
| MemoryCache.MemoryCacheService.Set | api/src/common/memory-cache.service.ts:21-26 | Stores, records the key in `order`, and evicts when over the maximum |
| MemoryCache.MemoryCacheService.Evict | api/src/common/memory-cache.service.ts:32-37 | The loop shifts keys until the size fits or nothing is left to shift, and ends |
| MemoryCache.RunStaysTracked | api/src/common/memory-cache.service.ts:21-37 | In every run each stored key occurs in `order`, however many duplicate or stale keys that holds |
| MemoryCache.GetFreesExpired | api/src/common/memory-cache.service.ts:11-19 | A `get` removes the key exactly when it has expired, and nothing else |
| MemoryCache.OldestGoes | api/src/common/memory-cache.service.ts:21-37 | With each stored key once in `order`, a new key that finds the cache full takes the place of the oldest one and stays |
| MemoryCache.LatestAreKept | api/src/common/memory-cache.service.ts:21-37 | Over any sequence of new keys exactly the latest ones up to the maximum are stored |
| MemoryCache.SizeBoundedAfterSet | api/src/common/memory-cache.service.ts:25-36 | After a `set` the size is at most the maximum if and only if the maximum is not 0 or the empty key is neither set nor stored |
| MemoryCache.EmptyKeyEscapesBound | api/src/common/memory-cache.service.ts:34-35 | That exception happens |
| MemoryCache.RefinesPlainMap | api/src/common/memory-cache.service.ts:11-37 | Whatever is stored is what was last set and not deleted since |
| MemoryCache.ReadIsFreshOrNothing | api/src/common/memory-cache.service.ts:11-19 | A read returns nothing, or the unexpired value last set and not deleted since |
| MemoryCache.ExactWithinBound | api/src/common/memory-cache.service.ts:21-37 | While no more distinct keys than the maximum were set, reads are exactly those of a plain expiring map |
| WsRate.AllowWsMessage | api/src/common/ws-rate.ts:4-10 | Counts the message, starts a one-second window with the first, and admits up to the limit |
| WsRate.CallsBound | api/src/common/ws-rate.ts:4-10 | Any sequence of whole calls has at most 2N - 1 admitted in any half-open second |
| WsRate.ModestCallerIsAdmitted | api/src/common/ws-rate.ts:4-10 | A caller with fewer calls than the limit in the second before is admitted |
| WsRate.SilentCallerIsAdmitted | api/src/common/ws-rate.ts:7-9 | After any calls, one silent for over a second finds the counter gone, starts a new window and is admitted |
| WsRate.WindowBound | api/src/common/ws-rate.ts:7-9 | One counter admits at most the limit in its life |
| WsRate.IntervalBound | api/src/common/ws-rate.ts:4-10 | However messages arrive and however late `EXPIRE` commands are, any half-open second admits at most 2N - 1 |
| WsRate.IntervalBoundIsTight | api/src/common/ws-rate.ts:4-10 | A stream for which 2N - 1 are admitted |
| WsRate.AtMostLimitIff | api/src/common/ws-rate.ts:3-10 | No interval of any stream admits more than the limit if and only if the limit is at most 1 |
| Redis.CacheService.GetJson | api/src/redis/cache.service.ts:8-11 | The unexpired value or nothing |
| Redis.CacheService.SetJson | api/src/redis/cache.service.ts:13-15 | Reads under the key give the value up to the expiry and nothing afterwards; other keys are untouched |
| Redis.CacheService.Increment | api/src/redis/cache.service.ts:21-29 | Counts from 1 on an expired or absent key; only the call that created the counter sets its expiry, and a time to live of 0 sets none |
| Migrations.Runner.RunUp | api/src/scripts/migrations.ts:64-73 | Runs and marks what is not applied, in file order |
| Migrations.Runner.RunDown | api/src/scripts/migrations.ts:76-89 | Reverts the latest applied ids that have a file |
| Migrations.Runner.RunTo | api/src/scripts/migrations.ts:92-114 | Raises to the target, then reverts what lies beyond it, latest first |
| Migrations.UpAppliesAll | api/src/scripts/migrations.ts:64-73 | `up` applies every file, in file order, after what was applied already |
| Migrations.DownDropsLast | api/src/scripts/migrations.ts:76-89 | `down k` unmarks exactly the k latest ids, or all when there are fewer |
| Migrations.RaisedFailsIff | api/src/scripts/migrations.ts:27-40 | Raising fails exactly when it comes to mark an id twice or one that is marked already |
| Migrations.ToIsPathIndependent | api/src/scripts/migrations.ts:92-114 | With each `down` inverting its `up`, from the state after any j files `to` leads, database included, to the state that running the files up to the target would have given |
| Migrations.LeIff | api/src/scripts/migrations.ts:97 | Ids are compared by the first character that differs, a prefix being the smaller |
| Migrations.ToReachesTarget | api/src/scripts/migrations.ts:92-114 | From any starting set exactly the files up to the target end up applied; ids without a file stay |
| Migrations.ToIsExactIff | api/src/scripts/migrations.ts:104-111 | The applied ids are exactly the files up to the target if and only if every applied id had a file |
| Migrations.ToIsIdempotent | api/src/scripts/migrations.ts:92-114 | A second `to t` changes neither marks nor database |
| Migrations.LoweringUndoesRaising | api/src/scripts/migrations.ts:64-90 | Reverting what the `up` loop marked, latest first, restores both |
| Migrations.UpThenDownRestores | api/src/scripts/migrations.ts:64-90 | `up` applying k migrations and then `down k` restores database and applied list when each `down` inverts its `up` |
| JwtKeys.JwtKeysService.EnsureRotation | api/src/security/jwt-keys.service.ts:54-70 | Rotates exactly when the current key is a period old, and drops exactly the keys older than three periods |
| JwtKeys.RotatesIffOld | api/src/security/jwt-keys.service.ts:58-62 | A check rotates exactly when the current key is a period old; the new key is the fresh secret as of now, and otherwise nothing changes |
| JwtKeys.CheckedKeyIsYoung | api/src/security/jwt-keys.service.ts:54-70 | In every run the current key is younger than a period right after a check |
| JwtKeys.JwtKeysService.GetCurrent | api/src/security/jwt-keys.service.ts:72-76 | The id returned always names a stored key |
| JwtKeys.RunIsGood | api/src/security/jwt-keys.service.ts:42-70 | In every run the current key is the newest, keys are a period apart, and none is more than three periods older; id reuse included |
| JwtKeys.KeysStayFewAndSpaced | api/src/security/jwt-keys.service.ts:54-70 | Hence at most four keys are stored, for any rotation period above 0 |
| JwtKeys.RetiringKeySurvivesIff | api/src/security/jwt-keys.service.ts:60-67 | A rotation keeps the retiring key exactly when the new id differs from its id and it is at most three periods old |
| JwtKeys.KeySurvivesIff | api/src/security/jwt-keys.service.ts:54-81 | From any point of a run on, a key stays verifiable under its id if and only if every later rotation takes another id and finds the key at most three periods old |
| JwtKeys.FifthRotationOverwrites | api/src/security/jwt-keys.service.ts:60-61 | Initialising once and rotating once a period, the fifth rotation overwrites the retiring key |

## Left out

- Coverage.RunsConverge: covers updates sent over the socket by joined clients; edits made offline or before joining go to REST, and a REST post is not broadcast at all.
- Coverage.AlwaysCoveredIff: assumes that every update is accepted and that every flush commits. A reconnect is the fetch its new `y-init` is; that its client misses messages, or edits, while disconnected is not modelled, and processes do not unsubscribe.
- Convergence.SettledIffIdle: does not fix when a batch timer fires; `Batches` has the timers.
- Cluster.BoundedStaleness: takes each service call and job as one step (`LateFills` has the cache fills of reads as steps of their own); the caches a write fills after its commit are part of it, and a Redis failure then is not modelled. What a job stores after an interleaved replay is covered, since the run may also store arbitrary content (`Damage`).
- DocumentStore.DocumentsService.ValidateAndRepair: requires that no full page of the log is undecodable, because the loop does not end otherwise, and takes the replay as one step; `Writers` and `Losses` have its calls one by one.
- DocumentStore.DocumentJobsService.ProcessSnapshot: the same two conditions.
- DocumentStore.DocumentsService.ApplyYUpdate: size notices, metrics and audit entries are not modelled; the transaction fails only on a duplicate sequence number.
- DocumentStore.DocumentsService.CreateManualSnapshot: labels and other metadata are not modelled.
- Yjs.DiffCompletes: updates that arrive before what they depend on are kept as items of the document; Yjs's internal holding area for them is not modelled.
- Gateway.WsGateway.OnYUpdate: one message is one step, although the handler awaits between its Redis commands; messages of one user handled concurrently are not covered.
- Gateway.OrderlyStreamPasses: the client restarts its numbers at 1 when the page is reloaded, so a new session can be refused as out of order for up to 300 s.
- Provider.SimpleYProvider.ApplyUpdate: the `wsQueue` list is not modelled; the update handler reaches it only when there is no socket.
- Provider.QueueConserves: what `localStorage` holds after a crash is not claimed, and neither is the spacing of retries: a failed flush starts the batch timer as well as the backoff timer.
- Migrations.UpThenDownRestores: the applied list is in the order of marking; the code sorts by a time in milliseconds, which leaves marks of one millisecond unordered.
- Migrations.Runner.RunUp: migrations that throw are not modelled; two files with one id end in the duplicate-mark failure of the code.
- JwtKeys.JwtKeysService.EnsureRotation: load, change and save are one step; two processes rotating at once are not modelled.
- Delivery after a failed flush, a lock conflict or a refused message: the gateway empties the batch first and the client ignores acknowledgements, so there is none to prove.
- Reading environment variables that are not numbers; guards, login, sessions, presence, comments, search, sharing, notifications, metrics and retention: plumbing or short case splits.
- The per-IP limiter of `api/src/common/rate-limit.middleware.ts` has the counter of `WsRate` with other windows.
