# A verified model of the task queue's dashboard cache and job pipeline

The service accepts email and webhook jobs over HTTP, queues them in a message broker,
executes them at least once behind a durable idempotency store, routes what fails three
times to a dead letter queue, and shows all of it on a public board behind a snapshot
cache. This project models the two state machines at its core and proves what they
guarantee over every run and every interleaving.

## How the model is organised

**The snapshot cache** (`src/middleware/dashboard.cache.ts`)

- `SnapshotKeys`: a request's query becomes a view, a view becomes a key.
- `SnapshotCache`: the class `DashboardCache`, one method per synchronous stretch of the
  middleware, each proved to compute a function on cache values.
- `SnapshotRuns`: that function inside a world of polls, board reads, completions in any
  order, queue changes, invalidations and time. A body records from which query, and from
  which queue states, the board built it.
- `RebuildBounds`: how often the upstream can be reached, and by which requests unbounded.
- `OverlappingRebuilds`: what happens when two rebuilds of one view are out together.
- `Shedding`: which of its four answers the middleware gives, exactly when.

**The job pipeline** (`src/queue`, `src/workers`, `src/processors`, `src/storage`)

- `IdempotencyStore`: the class `IdempotencyDatabase`, its upserts and its migration.
- `Pipeline`: every accepted job, the broker's index of live ids, the store, the dead
  letter queue, and histories of effects, results and correlation scopes, driven by events
  the broker, the network, the disk and the callers may produce in any order.
- `TaskWorker`: the processors, the worker's event handlers, dead letter routing and the
  shared enqueue as methods, proved to do what the pipeline's events say.
- `EffectLedger`, `Attempts`, `DeadLetters`, `FailureRecords`, `JobIsolation`, `Tracing`: the
  theorems.
- `Admission`, `DepthReads`: the queue depth ceiling under concurrent submissions, and what
  its checks cost.
- `Correlation`, `Redaction`: the pure text functions on the path of a job.

**The coupling**: `Board` runs both machines at once; the pipeline's invalidations are the
cache's. `LostReply` follows one such run from a job's acceptance to a HIT that lacks its
dead letter entry.

A run is a sequence of events; an event that is impossible in a state changes nothing, so
a theorem about all sequences is one about all interleavings. `Reachable` means: at the
end of some run that started at some time.

## What is assumed of the surroundings

- The broker keeps at most one live job per id, ignores an `add` whose id it still knows,
  runs a job in one place at a time, and counts an attempt before it announces its failure.
- The move to failed and the part of the `failed` handler before its first `await` form
  one step; a success and its `completed` handler are two. One synchronous stretch of code
  reads one clock value.
- A worker may be lost at any other moment; the broker then redelivers without counting
  an attempt.
- Reads of the store do not fail. A write may throw, and then did not commit.
- The clock does not run backwards; it may start anywhere.
- JSON printed by the store reads back as it was. There is one web process.
- The board builds its body from `req.query` alone, in any number of commands, each of
  which sees the queue state of its moment.
- A header value holds Latin-1 characters only, as the HTTP server delivers it, so that
  one character is one code unit for the 64-character cut.

## Where the code and its documentation differ

The model follows the code.

- `src/middleware/dashboard.cache.ts:63-65` says ten simultaneous viewers cost what one
  costs. Misses are not joined: from any state, n overlapping polls of one view that is
  not fresh cost min(n, what is left of the budget) rebuilds
  (`OverlappingMissesAllRebuild`). They cost what one costs exactly when the view is
  fresh, or at most one rebuild is left in the budget, or n is 1
  (`ManyCostWhatOneCostsIff`).
- `src/middleware/dashboard.cache.ts:30` and `:55-59` say that no caller can force a miss
  and that the rebuilds of all callers combined are capped. Lines 277-280 hand any request
  that is not a GET of exactly `/api/queues` to the board without asking the budget, and
  the guard admits HEAD (`src/middleware/dashboard.guard.ts:20`). Arrivals by one method and
  path keep within the rate, in all runs, if and only if they are GETs of that route
  (`CapHoldsIffCacheable`): n others bring n arrivals, whatever the budget
  (`OthersPassUncounted`). HEAD of the route and the route with a slash at its end are such
  others (`VariantsAreNotCacheable`); what the framework's router makes of them is not part
  of this model.
- `src/queue/producer.ts:30-33` bounds depth reads by one per TTL. That holds while checks
  do not overlap and counts arrive (`ReadsAreSpaced`). n checks that begin before the first
  count arrives cost n reads; they cost what one costs exactly when n is 1 or a usable memo
  answers them (`ManyChecksCostOneIff`).
- `tests/dashboard.cache.spec.ts:398-399` expects a stale answer to be the newest snapshot
  of its view. It is the one that finished last (`ServedIsLatest`), which need not have
  been read last (`OlderRebuildReplacesNewer`; the generations do not tell). With no
  further poll, a rebuild that is out can take its view back exactly when another rebuild
  of the view is out as well, or it has already read a state older than what is held
  (`CanGoBackIff`); one further poll can always bring such another rebuild
  (`RivalCanAlwaysCome`). A body read from
  an older state than one stored before it comes from a rebuild that overlapped that one
  (`OnlyOverlapsGoBack`); where no view has two rebuilds out at once, none ever does
  (`CoalescedRebuildsNeverGoBack`).
- `src/middleware/dashboard.cache.ts:69-73` and `src/config/environment.ts:58-60` say every
  change invalidates and the next poll goes to the queue. `NextPollMissesIffAnnounced`
  gives the exact set of changes that do not invalidate: a job starting, a crash and
  redelivery, a retry or other change the broker makes on its own, and the moments between
  an `add` landing and its caller resuming and between a success and its handler. After any other change the poll goes to the
  queue if and only if the budget grants a rebuild (`NextPollReachesQueueIff`).
- `src/queue/dlq.ts:51-54` invalidates after the write so that the entry is seen. If the
  write takes effect and its reply is lost, the `failed` handler ends without the
  invalidation and every poll is answered as before: from the end of the handler on, every
  HIT contains the entry if and only if the write was acknowledged or there was no body to
  be hit that had read the queue (`EntryShowsIffAcknowledged`). `LostReply.EntryIsHidden`
  is a run that ends in a HIT without the entry. Any later invalidation makes up for it
  (`HitsShowSettled`).
- `docs/design_decisions.md:102` says a redelivery after a crash skips a side effect that
  had completed. It skips one that was recorded: after a crash between effect and record
  the redelivery repeats it (`CrashRepeatsTheEffect`). A delivery whose
  effect would take place skips it if and only if the record is COMPLETED (`DeliverySkipsIffRecorded`); `EffectsArePaidFor` gives
  the exact count.
- `src/storage/idempotency.db.ts:54-57` says existing rows migrate without loss. The old
  `key TEXT PRIMARY KEY` column admits NULL in SQLite; no row is lost if and only if no key
  is NULL (`MigrationIsLossless`). The service itself records only under a key, so such a
  row would have to come from outside it.
- `src/logging/context.ts:28-30` says an id that does not survive normalisation is
  discarded rather than repaired. The code removes the offending characters and keeps the
  rest: `a b` becomes `ab` (`SpaceIsRepaired`). A header is kept as it is or discarded
  exactly when it is a well-formed id or has no id character among the first 64 of its
  trimmed text (`KeptOrDiscardedIff`).
- `docs/architecture.md:140` lists waits of 1, 2 and 4 seconds. Three attempts have two
  waits between them, 1 and 2 seconds (`WaitsBetweenAttempts`).

## Model

| member | source | states |
|---|---|---|
| `SnapshotKeys.Canonicalize` | src/middleware/dashboard.cache.ts:173-198 | whatever the query, the result is a view: a registered non-empty queue or none, a known status or none, page and page size printed from 1..100 |
| `SnapshotKeys.CanonicalFormOf` | src/middleware/dashboard.cache.ts:141-198 | a queue or status is kept exactly if asked for, as text or first of a list, and known; a page or page size exactly if asked for and in 1..100, else page 1 and ten a page |
| `SnapshotKeys.ViewsAreFixedPoints` | src/middleware/dashboard.cache.ts:162-198 | a query is its own canonical form if and only if it is a view; so canonicalisation is idempotent and reaches every view, for any number parser that reads back 1..100 |
| `SnapshotKeys.DecimalReadingWorks` | src/middleware/dashboard.cache.ts:149-153 | an actual decimal reader meets what the theory asks of the number parser |
| `SnapshotKeys.KeyDecodes` | src/middleware/dashboard.cache.ts:200-206 | read from right to left, a key gives back its view, even when queue names contain `&s=` |
| `SnapshotKeys.KeyIsInjective` | src/middleware/dashboard.cache.ts:200-206 | two views share a key only if they are the same view |
| `SnapshotKeys.KeySpaceIsBounded` | src/middleware/dashboard.cache.ts:117-139 | any set of queries names at most (queues + 1) * 10 * 100 * 100 keys |
| `SnapshotCache.DashboardIsValid` | src/middleware/dashboard.cache.ts:286-303 | the middleware's own keying gives distinct views distinct keys, which is all that the run theorems require of it |
| `SnapshotCache.DashboardCache.constructor` | src/middleware/dashboard.cache.ts:86-93 | a fresh process holds no snapshot, generation 0 and an unused budget |
| `SnapshotCache.DashboardCache.InvalidateDashboardSnapshot` | src/middleware/dashboard.cache.ts:213-215 | one more generation; snapshots and budget stay |
| `SnapshotCache.DashboardCache.ClaimRefreshBudget` | src/middleware/dashboard.cache.ts:241-251 | the new budget and the verdict are those of the window function that the rate bound is proved about |
| `SnapshotCache.DashboardCache.DashboardSnapshotCache` | src/middleware/dashboard.cache.ts:276-353 | reply and whole new state are those of the request function that the run theorems are proved about: pass, hit, stale, shed or miss |
| `SnapshotCache.DashboardCache.CaptureJson` | src/middleware/dashboard.cache.ts:355-377 | only a 200 is kept, under key and generation of its dispatch, with a TTL from completion, after a wholesale clearing at the ceiling |
| `SnapshotRuns.RunKeepsInv` | src/middleware/dashboard.cache.ts:303-377 | every step keeps: entries and rebuilds cover what had landed when their generation began, entries sit under their view's key and are bounded in number |
| `SnapshotRuns.HitIsFresh` | src/middleware/dashboard.cache.ts:307-316 | in every reachable state a HIT is the caller's own view, stored less than one TTL ago, read from states containing every change that had landed when the last invalidation ran; with nothing landed since it equals the uncached board's answer |
| `SnapshotRuns.StaleIsTheSameView` | src/middleware/dashboard.cache.ts:318-328 | a STALE answer is the caller's own view, and contains every change that had landed by the last invalidation before its rebuild |
| `SnapshotRuns.CacheIsCoherent` | src/middleware/dashboard.cache.ts:288-303 | every cached body was built from exactly the view its key encodes; the map never exceeds its ceiling |
| `Shedding.AnswersExactly` | src/middleware/dashboard.cache.ts:303-353 | in every reachable state: HIT exactly if a current body of the view is held, else MISS exactly if the budget has room, else STALE exactly if any body of the view is held however old, and SHED only if none is |
| `Shedding.ShedTellsWindow` | src/middleware/dashboard.cache.ts:340 | a refused caller is told the window's length in whole seconds, rounded up |
| `Shedding.CompletionDropsIff` | src/middleware/dashboard.cache.ts:358-374 | a held body is dropped exactly by a 200 completion of another view that finds the cache at its ceiling |
| `Shedding.BuiltViewsAreNeverShed` | src/middleware/dashboard.cache.ts:318-328 | in runs whose views fit the cache, once a rebuild of a view has finished with 200 no later poll of it is SHED |
| `OverlappingRebuilds.OverlappingMissesAllRebuild` | src/middleware/dashboard.cache.ts:303-353 | from any state and at any time, n overlapping polls of one view cost 0 rebuilds if it is fresh and else min(n, what is left of the budget) |
| `OverlappingRebuilds.ManyCostWhatOneCostsIff` | src/middleware/dashboard.cache.ts:63-65 | n simultaneous viewers cost what one costs if and only if n is 1, the view is fresh, or at most one rebuild is left in the budget |
| `OverlappingRebuilds.OlderRebuildReplacesNewer` | src/middleware/dashboard.cache.ts:352-374 | for every configuration and start, a concrete run in which a slower rebuild replaces a body read after a change by one read before it, under equal generations |
| `OverlappingRebuilds.CanGoBackIff` | src/middleware/dashboard.cache.ts:352-374 | in every reachable state, with no further poll, a rebuild that is out can still replace its view's body by one read earlier if and only if another rebuild of the view is out or it has already read a state older than what is held |
| `OverlappingRebuilds.RivalCanAlwaysCome` | src/middleware/dashboard.cache.ts:303-353 | in every reachable state, for every rebuild that is out, an invalidation, a window's time and one poll bring another rebuild of its view, after which it can go back |
| `OverlappingRebuilds.OnlyOverlapsGoBack` | src/middleware/dashboard.cache.ts:352-374 | in every reachable state, a body read from an older state than one stored before it was let through before that one was stored |
| `OverlappingRebuilds.CoalescedRebuildsNeverGoBack` | src/middleware/dashboard.cache.ts:352-374 | in runs with at most one rebuild per view at a time, every state a body was read from is at or after every state any earlier body of its view was read from |
| `OverlappingRebuilds.ServedIsLatest` | tests/dashboard.cache.spec.ts:382-401 | a HIT or STALE answer is the rebuild of that view which finished last |
| `RebuildBounds.RebuildRateIsBounded` | src/middleware/dashboard.cache.ts:217-251 | in any interval of length L at most (ceil(L / window) + 1) * maximum GETs of the cached route are let through to the board, for every run and any choice of keys |
| `RebuildBounds.CacheableArrivalsAreBounded` | src/middleware/dashboard.cache.ts:276-353 | in runs that poll by GETs of the cached route only, the bound covers everything that reaches the board |
| `RebuildBounds.OthersPassUncounted` | src/middleware/dashboard.cache.ts:277-280 | from any state, n requests of any other method or path bring the board n requests and change neither cache nor budget |
| `RebuildBounds.CapHoldsIffCacheable` | src/middleware/dashboard.cache.ts:55-59 | arrivals by one method and path keep within the rate in every run and interval if and only if they are GETs of the cached route |
| `RebuildBounds.VariantsAreNotCacheable` | src/middleware/dashboard.cache.ts:96-98 | HEAD of the cached route, and the route with a slash at its end, are not GETs of the cached route |
| `RebuildBounds.RateFromWindows` | src/middleware/dashboard.cache.ts:241-251 | the same bound from the window discipline alone: dispatches in order, capped per window, windows a full length apart |
| `RebuildBounds.EachViewIsAmortised` | src/middleware/dashboard.cache.ts:61-76 | if each rebuild succeeds before the next poll and the views fit the cache, one view is rebuilt at most once, plus once per invalidation, plus once per TTL elapsed |
| `RebuildBounds.RebuildsAreAmortised` | src/middleware/dashboard.cache.ts:61-76 | under the same conditions K views cost at most K * (1 + invalidations + elapsed / TTL) rebuilds in all, however many polls arrive |
| `IdempotencyStore.MigrationPreservesLookups` | src/storage/idempotency.db.ts:59-98 | after the migration every lookup by job name and key answers as a scan of the old rows would |
| `IdempotencyStore.ScanFindsFirst` | src/storage/idempotency.db.ts:91-98 | such a scan finds a record exactly where a row has that name and key and none before it has |
| `IdempotencyStore.OpeningPreservesLookups` | src/storage/idempotency.db.ts:28-42 | whatever state a file was in, a lookup after opening finds what that state held, and opening again changes nothing |
| `IdempotencyStore.MigrationIsLossless` | src/storage/idempotency.db.ts:54-86 | under the old primary key the copy keeps every row if and only if no key is NULL |
| `IdempotencyStore.IdempotencyDatabase.constructor` | src/storage/idempotency.db.ts:28-42 | whatever state the file was left in, opening yields a composite table holding the migrated rows |
| `IdempotencyStore.IdempotencyDatabase.MigrateIfLegacySchema` | src/storage/idempotency.db.ts:59-89 | only a legacy table is rebuilt; opening again changes nothing |
| `IdempotencyStore.IdempotencyDatabase.GetRecord` | src/storage/idempotency.db.ts:91-98 | the row for this job name and key, and nothing for any other pair |
| `IdempotencyStore.IdempotencyDatabase.HasBeenProcessed` | src/storage/idempotency.db.ts:111-114 | true exactly when the row for this job name and key is COMPLETED |
| `IdempotencyStore.IdempotencyDatabase.RecordSuccess` | src/storage/idempotency.db.ts:116-126 | this row becomes COMPLETED with result and time; all others stay |
| `IdempotencyStore.IdempotencyDatabase.RecordFailure` | src/storage/idempotency.db.ts:136-146 | this row becomes FAILED, even over a COMPLETED one; all others stay |
| `Pipeline.JobIdIsInjective` | src/queue/producer.ts:118-120 | `email_k` and `webhook_k` are jointly injective in type and key |
| `Pipeline.StepKeepsIndexed` | src/queue/producer.ts:98-103 | every event keeps live ids and live jobs in one-to-one correspondence |
| `Pipeline.EnqueueAddsOneJob` | src/queue/producer.ts:98-113 | an enqueue disturbs no job, row or history, and creates a job only where no live one has that type and key |
| `EffectLedger.CompletedIsPermanent` | src/storage/idempotency.db.ts:116-146 | in every reachable state no event changes a COMPLETED row, although the failure upsert has no guard |
| `EffectLedger.ReplayIsStable` | src/processors/email.processor.ts:23-38 | all results ever returned for one type and key carry the same data, all duplicates the same time, no later than the time of the first answer |
| `EffectLedger.EffectsArePaidFor` | src/processors/webhook.processor.ts:76-108 | exactly: effects = effects cut off from their record + 1 if COMPLETED + 1 if about to be recorded, never both; hence at most 1 + cut off |
| `EffectLedger.NoSuccessWithoutWork` | src/storage/idempotency.db.ts:100-114 | every result ever returned, first or duplicate, and every COMPLETED row, names an effect that was performed for the same type and key with the same data |
| `EffectLedger.FinishedJobsAreBacked` | src/processors/webhook.processor.ts:100-122 | every finished job's result is on record, agrees with its row, and names an effect that was performed |
| `EffectLedger.SuccessesAreDated` | src/processors/email.processor.ts:60-77 | in every reachable state a first success writes its data and the time of the write and answers with the time of the answer; a replay answers with the data and time of the row |
| `EffectLedger.DeliverySkipsIffRecorded` | src/processors/webhook.processor.ts:57-72 | in every reachable state, a delivery performs no effect if and only if the row is COMPLETED or the delivery would not take effect anyway |
| `EffectLedger.CrashRepeatsTheEffect` | docs/design_decisions.md:101-102 | for any waiting job not yet COMPLETED, a crash between effect and record makes the redelivery perform the effect a second time |
| `Attempts.FailureCounterCountsAttempts` | src/workers/task.worker.ts:99-124 | the failure counter is the sum of failed attempts over all jobs; a job is dead if and only if it made exactly three; a FAILED row belongs to such a job |
| `Attempts.WaitsBetweenAttempts` | src/queue/queue.ts:18-22 | a job waits 1000 ms after its first failed attempt, 2000 ms after its second, and is dead at its third |
| `Attempts.JobsEnd` | src/queue/queue.ts:18-22 | without crashes a measure of at most 20 pays for every event that happens to a job and is zero exactly when it is finished or dead |
| `Attempts.LiveJobCanMove` | src/workers/task.worker.ts:46-62 | a live job whose backoff is over always has an event that can happen to it |
| `Attempts.PendingFollowsEvents` | src/queue/producer.ts:41-42 | the number of waiting, active and delayed jobs rises by one with each accepted enqueue, falls by one when a job ends, and changes at no other event |
| `DeadLetters.DlqIdIsReadable` | src/queue/dlq.ts:47-49 | an entry's id determines the job's type, key and time of death, underscores in keys notwithstanding |
| `DeadLetters.DlqIdsAreDistinct` | src/queue/dlq.ts:47-49 | no two terminal failures ever share an entry id, because backoff keeps two deaths under one job id apart |
| `DeadLetters.DeadJobsAreConserved` | src/workers/task.worker.ts:116-143 | every terminal failure has its own entry with its id, data, reason and attempt count, unless its write is under way or failed; no entry belongs to anything else; failing to record plays no part |
| `FailureRecords.EntriesTellTheirJob` | src/queue/dlq.ts:36-49 | field by field, in every reachable state: a landed entry's id and `originalJobId` spell type and key, and it gives the job's type and data, its time of death, attempt count 3, and its reason, or `Unknown error` where that is empty |
| `FailureRecords.AttemptsThrowTheirCause` | src/processors/webhook.processor.ts:87-98 | in every reachable state an attempt throws exactly where it is refused, loses its answer or cannot write its record, and throws that cause; only the failure event or a crash moves it on |
| `FailureRecords.LastWordsAreKept` | src/workers/task.worker.ts:116-136 | however much later the entry lands, it gives the text the third attempt threw and the moment it failed |
| `FailureRecords.TerminalFailureIsRecorded` | src/workers/task.worker.ts:116-133 | in every reachable state the third failure of a job with a key leaves FAILED, the text thrown and the time, if the store accepts the write; an earlier or unrecorded one leaves the row alone; other rows stay |
| `FailureRecords.RowChangesOnlyAtEnds` | src/storage/idempotency.db.ts:128-146 | in every reachable state a row changes only by a success or a recorded terminal failure of its own type and key |
| `FailureRecords.DeadStayOnRecord` | src/workers/task.worker.ts:121-124 | a dead job whose failure was recorded has a row at every later point of every run |
| `DeadLetters.RunIsConserved` | src/queue/dlq.ts:36-55 | the timeline of deaths and the correspondence of handlers and entries hold after every run |
| `JobIsolation.TypesDoNotInterfere` | src/storage/idempotency.db.ts:100-110 | erasing every event of one job type leaves jobs, rows, effects and results of the other unchanged, even with equal keys |
| `JobIsolation.TypesRouteAlike` | src/queue/dlq.ts:36-55 | nor does it change how far the other type's failure handlers got, its dead letter entries and what they say, or the correlation scopes entered for it |
| `Tracing.OneIdEndToEnd` | src/workers/task.worker.ts:55-61 | the id stamped at the enqueue is the scope of every attempt and every failure handler of that job, through any events before, between and after; without one, the job id is used everywhere alike |
| `Tracing.EveryAttemptIsTraced` | src/workers/task.worker.ts:94-96 | in every reachable state each attempt begun and each failure handled has entered a scope, and it carries the job's id |
| `Tracing.HeaderToDeadLetter` | src/logging/context.ts:52-56 | one well-formed id is settled at intake, the header itself if that is well-formed and the fresh one if there is none; it is the scope of every attempt and failure handler of the job the request enqueued, and stands in its dead letter entry |
| `Tracing.PayloadIsPreserved` | src/queue/dlq.ts:36-45 | the payload, correlation id included, is the same at every later point of the job and in its dead letter entry |
| `Tracing.JobsAreFrozen` | src/queue/producer.ts:92-100 | type, key and payload of an accepted job never change |
| `Correlation.IntakeIsId` | src/logging/context.ts:32-56 | whatever the header, the settled id has 1 to 64 characters over A-Z, a-z, 0-9, `_`, `-` |
| `Correlation.IntakeHonoursHeader` | src/logging/context.ts:52-54 | a well-formed header is the id; without a header, or an id character in its window, the fresh id is; any other header gives the id characters of its window, in order |
| `Correlation.WindowIsTrimmedFront` | src/logging/context.ts:34 | the window is the first 64 characters of the text without the white space around it |
| `Correlation.FixedPointsAreIds` | src/logging/context.ts:32-36 | the ids normalisation leaves alone are exactly the well-formed ones; normalising twice is normalising once |
| `Correlation.KeptOrDiscardedIff` | src/logging/context.ts:28-36 | a header is kept unchanged or discarded, not repaired, if and only if it is a well-formed id or its trimmed first 64 characters hold no id character |
| `Correlation.SpaceIsRepaired` | src/logging/context.ts:28-36 | the header `a b` is repaired to `ab` |
| `Correlation.StampedPayloadParses` | src/types/job.types.ts:72-95 | any payload the input schema accepts is accepted, unchanged, by the record schema once stamped with any settled id |
| `Correlation.ClientCannotForge` | src/types/job.types.ts:75-80 | a body that brings its own `correlationId` is refused |
| `Correlation.EmailAcceptedIff` | src/types/job.types.ts:22-29 | an email body is accepted, and unchanged, exactly if it has the four fields within their limits and no other |
| `Correlation.WebhookAcceptedIff` | src/types/job.types.ts:50-57 | a webhook body is accepted exactly if it has its fields within their limits and no other; a missing payload becomes an empty one |
| `Correlation.StampParsesIff` | src/types/job.types.ts:87-95 | of all ids that could be stamped, the record schema takes exactly those of 1 to 64 characters |
| `Correlation.JobSchemasAreSuitable` | src/types/job.types.ts:22-57 | both job types' schemas meet the conditions of the two theorems above |
| `Redaction.NothingIsLeft` | src/logging/logger.ts:12-14 | after the first replacement the scan's test for a match fails at every place of the result |
| `Redaction.ScanFindsPattern` | src/logging/logger.ts:14 | the scan finds a match at a place if and only if the text there divides into scheme, user, colon, password and at sign over the pattern's character classes |
| `Redaction.NoMatchMeansNowhere` | src/logging/logger.ts:14 | the scan finds nothing if and only if no such division exists at any place of the text |
| `Redaction.NoCredentialUrlIsLeft` | src/logging/logger.ts:5-14 | in the pattern's own terms, no part of the first replacement's result is a credential URL |
| `Redaction.FirstMatchIsMasked` | src/logging/logger.ts:14 | text before the first match is copied, the match becomes its scheme and `[REDACTED]@`, and the scan goes on behind it |
| `Redaction.SecretsLeaveNoTrace` | src/logging/logger.ts:5-14 | texts that differ only in the user and password of a credential URL, whatever surrounds it, are redacted alike |
| `Redaction.LoudUrlIsMasked` | src/logging/logger.ts:14 | `REDIS://u:p@h` becomes `REDIS://[REDACTED]@h`: the scheme is matched in any case and kept |
| `Redaction.RedactIsIdempotent` | src/logging/logger.ts:12-14 | a second pass changes nothing |
| `Redaction.UnchangedIffNoMatch` | src/logging/logger.ts:12-14 | a text is left as it is if and only if the pattern matches nowhere in it |
| `Redaction.KeptCharacterStartsNoMatch` | src/logging/logger.ts:14 | replacing matches further right never completes a match at a character the scan kept |
| `Admission.Producer.BeginCheck` | src/queue/producer.ts:35-39 | an unexpired memo decides the check; otherwise a count is asked for |
| `Admission.Producer.FinishCheck` | src/queue/producer.ts:41-73 | the counts decide and are memoised from the check's start; a failed read refuses as unavailable and leaves the memo |
| `Admission.OvershootIsBounded` | src/queue/producer.ts:35-73 | under every interleaving, pending work after an accepted add is at most the ceiling less one plus the adds since the reading that admitted it, and that reading was less than one TTL old at the check |
| `Admission.RefusalsAreJustified` | src/queue/producer.ts:58-73 | under every interleaving, every refusal relied on a reading at or above the ceiling, less than one TTL old at the check |
| `Admission.ChecksFollowReadings` | src/queue/producer.ts:35-73 | in every reachable state a check below the ceiling goes on to its add and one at or above it is refused, counts are what is pending and are asked for exactly without a usable memo, and every landed add is counted |
| `DepthReads.ReadsAreSpaced` | src/queue/producer.ts:28-46 | in runs in which checks do not overlap and no count fails, reads that are k reads apart are at least k TTLs apart |
| `DepthReads.OverlappingChecksAllRead` | src/queue/producer.ts:35-46 | from any state n checks begun together cost n reads, or none if the memo is usable |
| `DepthReads.ManyChecksCostOneIff` | src/queue/producer.ts:30-33 | they cost what one costs if and only if n is 1 or the memo is usable |
| `Board.HitsShowSettled` | src/middleware/dashboard.cache.ts:213-215 | once any invalidation has run after a change landed, no HIT on any view was read before the change |
| `Board.DeadLettersShow` | src/queue/dlq.ts:47-55 | once a terminal failure's handler has finished with its write acknowledged, no HIT on any view, then or later, was read before its entry landed |
| `Board.EntryShowsIffAcknowledged` | src/workers/task.worker.ts:135-142 | when a handler whose entry landed is over, every HIT contains the entry if and only if the write was acknowledged or no HIT was to be had, before the entry, on a body that had read the queue; after a lost reply every poll is answered as before |
| `LostReply.EntryIsHidden` | src/workers/task.worker.ts:135-142 | for every configuration, start, key, payload and view: three refused attempts, a look at the board and a lost reply end in a HIT read before the entry, although the entry is there and its handler is over |
| `Board.FailuresShow` | src/workers/task.worker.ts:90-97 | from the failure of an attempt on, through any further events, every HIT was read from states containing it |
| `Board.FollowUpsShow` | src/queue/producer.ts:105-108 | from the return of an enqueue, or the run of a `completed` handler, on, whatever happened before and after it, every HIT was read from states containing the job or its success |
| `Board.NextPollMissesIffAnnounced` | src/middleware/dashboard.cache.ts:69-73 | a poll that would hit still hits right after a change of the board if and only if the change is one of the quiet ones |
| `Board.NextPollReachesQueueIff` | src/middleware/dashboard.cache.ts:69-73 | it reaches the queue if and only if the change is announced and the budget grants a rebuild, and is answered STALE when announced without budget |
| `Board.ReachableIsGood` | src/middleware/dashboard.cache.ts:208-215 | in every joint run, changes, invalidations and clock of pipeline and cache stay in step, and each side is reachable on its own |
| `TaskWorker.Worker.ReplayIfProcessed` | src/processors/email.processor.ts:22-38 | a replay is given exactly when the row is COMPLETED, with its data and its creation time |
| `TaskWorker.Worker.ProcessEmailJob` | src/processors/email.processor.ts:13-78 | answer, effects and table are those of one attempt of the machine |
| `TaskWorker.Worker.ProcessWebhookJob` | src/processors/webhook.processor.ts:45-123 | the same, for a delivery that may be accepted, refused or lost |
| `TaskWorker.AttemptIsThreeEvents` | src/processors/webhook.processor.ts:57-122 | such an attempt leaves job, row and effects as a check, an act and a commit of the machine do, and no other row touched |
| `TaskWorker.AttemptIsAllOrNothing` | src/processors/webhook.processor.ts:57-122 | it succeeds exactly when the row is COMPLETED afterwards; a replay has no effect, a first success exactly the one it reports, a failure leaves the row alone |
| `TaskWorker.Worker.OnCompleted` | src/workers/task.worker.ts:75-82 | invalidates as the machine's handler event does, counts one success and observes the duration |
| `TaskWorker.Worker.OnFailed` | src/workers/task.worker.ts:90-134 | invalidates, counts, decides whether the failure is terminal and writes the row, all as the machine's failure event does |
| `TaskWorker.Worker.SendToDlq` | src/queue/dlq.ts:36-55 | the job's own entry is added unless the broker was not reached, and the invalidation follows only an acknowledged write |
| `TaskWorker.RoutingIsTheMachines` | src/queue/dlq.ts:47-55 | in every reachable state these are the queue and the invalidations of the machine's landing, return and failure events, for an acknowledged, an unreached and an unanswered write |
| `TaskWorker.Dispatcher.Enqueue` | src/queue/producer.ts:83-113 | a refused check or an unreached broker changes nothing; otherwise the payload, stamped unless there is no id or an empty one, is queued under its id unless known; only an acknowledged add invalidates and is reported as queued |
| `TaskWorker.DispatchIsTheMachines` | src/queue/producer.ts:98-108 | the dispatcher's queued payloads and generation follow the machine's live jobs and invalidations through its enqueue and return events |

## Left out

- Express routing, helmet, the board's own rendering, prom-client and pino: only the middleware's control flow, two counters and one histogram are modelled; a rendering is the pair of its query and the queue states it read.
- The broker's internals (locks, scripts, markers, stall counting): the assumptions above stand in for them; a job failed for stalling too often, for which `failed` gets no job, does not occur.
- Retention of finished jobs and of dead letter entries: an enqueue may find its id still retained or not, at will; entries are not trimmed.
- Process restart: a new process is a new run of the cache machine; the store outlives it, as crash and redelivery do in the pipeline.
- The per-route and per-address rate limiters and the worker's rate limiter: they only remove runs.
- `fetch`, SQLite and its file, the URL parser: an HTTP attempt is accepted, refused or lost; the table is a map; `resolveWebhookDestination` is a choice between two constants.
- The language's full conversion of text to a number: any partial parser that reads back 1..100.
- The second replacement of `redactSecrets`: it can alter the context the first one left, so the theorems are about the first pass.
- The formatter that applies `redactSecrets` to logged fields, log lines, stack traces, and how a job's duration is measured.
- Fields of a job other than type, key and correlation id are one opaque text in the pipeline; the schemas that validate them are in `Correlation`.
- Email address syntax is a parameter of the schema.
- Surrogate pairs: text is a sequence of characters, so the schemas' length limits count a character outside the basic plane once where the language counts two code units.
- Authentication, CORS, the read-only guard, environment parsing, connection handling, health, metrics output, command line and shutdown order.
- `clearAll`, `resetDashboardSnapshotCache`, `resetQueueDepthCache`: test seams.
- Fairness: that the broker eventually offers a waiting job is not part of the code; `Attempts.JobsEnd` bounds the events a job can take and `Attempts.LiveJobCanMove` says it is never stuck.
