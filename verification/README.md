# Battle Cloud: the job queue, its API and its keys, verified

Battle Cloud analyses public battle replays. An API accepts submissions and stores jobs in
Postgres; worker processes claim jobs under a lease, call the engine, and report. This project
models the shared state and every statement that changes it, and proves what the design relies
on over whole runs: that ownership by worker id alone is enough, that a report is all or
nothing, that concurrent claims split the queue, that paging and rate limiting give the answers
they promise, and that cache keys never collide.

`dafny verify dfyconfig.toml` checks everything.

## How the model is laid out

Entities and statements:

- `Contract`, `Tables`: the nine-field identity, engine builds, failure kinds, and the replay,
  analysis and job rows with their invariants. Times are microseconds on one clock. Row ids are
  numbers because only their equality and order matter.
- `Statements`, `Columns`: each SQL statement as the change it makes to the tables, with what it
  keeps, and the same changes stated column by column.

The queue as a system, at three grains:

- `Queue`, `WorkerLoop`, `Routes`: objects that update tables in place. `Queue.Database` has a
  method per statement, `WorkerLoop.Heartbeat` and `WorkerLoop.Worker` are the worker process
  with its renewal loop and drain loop, and `Routes.Api` is the submission handler. The engine
  is a parameter that answers each attempt with a document, a failure or nothing at all; time
  passes, and other processes reclaim, while it works.
- `Cluster`: a transition system with any number of worker processes and submissions, one step
  per committed statement, crashes and restarts at any point, the success transaction split in
  two, submissions split into their statements, and heartbeats that may arrive late for any job
  from any worker. `ClusterInvariant` proves its invariant; `JobHistory`, `Runs`, `Submissions`,
  `Outcomes`, `Remaining`, `Overtaking` and `Lease` prove what holds over whole runs. `Reachability`,
  `Interleaving` and `LateRenewal` build runs that show where a property ends.
- `SkipLocked`: overlapping claim statements with their row locks, and why to the jobs table they
  are a sequence of the cluster's claims.

Parts with laws of their own:

- `RateLimit`: the counter table, its purge, and the limiter objects that share it.
- `Keyset`, `Paging`: cursor pagination over a changing table, first on sort keys, then on the
  cursor text that travels through the client.
- `IdentityKey`, `Cursor`, and the codecs under them (`Numerals`, `Utf8`, `Base64Url`,
  `IsoTime`): the printed keys.

Assumed, because the configuration or the process model ensures it: an attempt cap of at least
one shared by all workers, leases and limits of at least one, live workers with different ids,
one job at a time per process. A worker id may be used again after its process has died.

## Where code and documentation differ

- `db/README.md:34` and `db/migrations/0001_initial.up.sql:21` speak of eight identity columns.
  Since `db/migrations/0002_usage_stats_dataset.up.sql:24` there are nine; the model has nine.
- `worker/battle_cloud_worker/queue.py:42` says renewals come well before the lease ends. With
  the shortest lease the configuration allows, one second, the period is the whole lease and no
  delay at all is tolerated (`Lease.SlackIsPositive`). For every lease, `LateRenewal.SlackIsExact`
  says which delays are.
- `db/queries/claim_job.sql:8` calls the queue FIFO. A claim that examines a row while a join has
  it locked goes on to a later row or to none, and that is the only way a claimer can miss a row
  that stays queued (`SkipLocked.MissedIffPassedOver`).
- `api/src/store.ts:42` promises that paging neither repeats nor skips. It never repeats, but
  the cursor has lost the microseconds of its timestamp (`api/src/store.ts:187`), so a row can be
  skipped. A row *hides* another if it is newer but its truncated cursor is not. A row that no
  table met on the way hides is returned exactly once. At the page sizes from 1 to 50 that
  `api/src/contract/schemas.ts:195` accepts, some size skips some row of an unchanging table if
  and only if the table hides some row, and then page size 1 does
  (`Paging.SomethingIsSkippedIff`). Row by row, page size 1 skips a row exactly when the newest
  row of its millisecond hides it (`Paging.SingleRowSessions`). For the store's own query, whose
  limit is unbounded, a row can be skipped exactly when any row hides it
  (`Paging.MissedIffHidden`).
- The stored turn counts describe the first document of an identity, not a later one, unless
  the counts agree (`Statements.TurnCountsAfterUpsert`). `Interleaving.SearchedTwice` reaches a
  state with any two counts side by side.
- The cache check of a submission is not atomic with its enqueue, so an identity can be searched
  for again although its analysis is stored. A search is redundant in this way exactly when an
  enqueue inserted after its own check had gone stale (`Submissions.RedundantIffStale`), and an
  identity has succeeded twice exactly when a job inserted like that has succeeded
  (`Submissions.TwiceIffStaleSucceeded`). Both happen (`Interleaving.SearchedTwice`).

## Model

| member | source | states |
|---|---|---|
| `Runs.Fencing` | db/queries/complete_job.sql:19-21 | In every run, a report changes the tables if and only if the reporting process made the job's latest claim for that very piece of work and nothing took the job away since, although the guard compares worker ids only |
| `Runs.ReportEffect` | worker/battle_cloud_worker/queue.py:196-203 | An accepted report takes its job out of `running`; a refused one leaves all three tables as they were |
| `Runs.LostLeaseIsFinal` | worker/battle_cloud_worker/queue.py:88-93 | Once a heartbeat finds no row, that worker does not own the job again before it claims it again, so the early discard never drops a result that would have been accepted |
| `Runs.ReachableTables` | worker/battle_cloud_worker/queue.py:162-203 | In every reachable committed state each analysis is named by a succeeded job of its identity, each succeeded job names an analysis of its identity, no row violates a CHECK constraint, identities have one live job and one analysis at most, each document was computed by the identity's build from the stored log, and each job has its replay |
| `Runs.JobsOverTime` | db/queries/reclaim_expired.sql:11-29 | Jobs keep identity, creation time and progress order for good, and an ended job never changes again |
| `Runs.NoJobCyclesForever` | db/queries/claim_job.sql:3-16 | In any run a job is claimed as often as its attempts say, at most the cap, and changes status at most twice the cap times, with what is left bounding what may follow |
| `Runs.AttemptsCountClaims` | db/queries/claim_job.sql:14-24 | The attempts column counts the job's claims in the run and nothing else |
| `Runs.StepHasFacts` | db/queries/heartbeat.sql:7-12 | What one step of any kind may do: ownership arises by claims only, attempts rise by claims only, work in hand comes from the process's own claim, jobs appear only for identities without a live one |
| `Outcomes.StepWritesColumns` | db/queries/fail_job.sql:10-23 | What every step of the cluster does to every column of every table, and that most do nothing |
| `Outcomes.FailureOutcome` | worker/battle_cloud_worker/queue.py:36-40 | In any run, an accepted failure of one of the two kinds worth a retry puts the job back in its old place if attempts are left; any other leaves it failed with that kind in every later state, never claimed again |
| `Outcomes.FailureHasACause` | worker/battle_cloud_worker/queue.py:140-152 | Every failure a worker comes to report was raised by the engine for that claim, or is a replay that was not stored when the worker loaded it |
| `Outcomes.ReclaimOutcome` | db/queries/reclaim_expired.sql:11-29 | In any run, a reclaim puts an abandoned job with attempts left back in its old place with the error it had, and otherwise ends it for good with a dead letter |
| `Outcomes.CreatedByTheClock` | db/migrations/0001_initial.up.sql:94 | Every job in any state was inserted by one enqueue, keeps what that wrote, and has as creation time the clock of that moment |
| `Outcomes.EarlierStaysAhead` | db/queries/claim_job.sql:35 | Of two jobs created at different times the earlier one is ahead of the later one in every state |
| `Outcomes.DocumentsComeFromTheEngine` | worker/battle_cloud_worker/queue.py:162-195 | In every state a stored document, with its telemetry, is one that the engine returned to a worker with a job of that identity in hand that had not learned it was lost, and the turn counts are those of such a document |
| `Outcomes.TransactionTime` | worker/battle_cloud_worker/queue.py:164-199 | A success transaction stamps its rows with the clock at its first statement |
| `Outcomes.StoredReplayWasFetched` | api/src/routes.ts:119-130 | In every state a stored replay is, field for field, one that a submission fetched under that id |
| `Outcomes.FetchFollowsMiss` | api/src/routes.ts:116-119 | A submission fetches only after it looked for the replay and found none |
| `Outcomes.SubmissionArrived` | api/src/routes.ts:95-99 | A submission is for the identity and profile it arrived with |
| `ClusterInvariant.StepKeepsInv` | worker/battle_cloud_worker/queue.py:102-203 | Every step of workers, submissions, crashes and stray heartbeats keeps the global invariant and changes rows only as one committed step may |
| `Statements.ClaimKeeps` | db/queries/claim_job.sql:22-29 | A claim of a queued row keeps the row and table invariants |
| `Statements.HeartbeatKeeps` | db/queries/heartbeat.sql:7-12 | A renewal, by an owner or by anybody else, keeps the invariants |
| `Statements.FailKeeps` | db/queries/fail_job.sql:6-23 | A failure report with any retry flag is a legal step, and keeps the invariants if and only if the flag does not give up a job whose kind of failure is worth a retry and which has attempts left |
| `Statements.ReclaimKeeps` | db/queries/reclaim_expired.sql:11-29 | The bulk reclaim keeps the invariants, in particular one live job per identity |
| `Statements.EnqueueKeeps` | db/queries/enqueue_job.sql:10-24 | An enqueue that inserts or joins keeps one live job per identity and the other invariants |
| `Statements.UpsertReplayKeeps` | api/src/store.ts:199-204 | Storing a replay never changes a stored one and leaves every stored document traceable to its log |
| `Statements.ReportSuccessKeeps` | worker/battle_cloud_worker/queue.py:164-203 | The success transaction keeps analyses and succeeded jobs naming each other |
| `Statements.ReportIsAllOrNothing` | worker/battle_cloud_worker/queue.py:195-203 | An accepted report changes exactly one analysis row and its own job row, which then name each other; a refused one changes no row |
| `Statements.TurnCountsAfterUpsert` | worker/battle_cloud_worker/queue.py:174-176 | Stored turn counts match the stored document if and only if the row was new or the counts agreed already |
| `Statements.StatusChangeDecreases` | db/queries/fail_job.sql:11-14 | Every change of status strictly lowers the remaining-work measure, which starts at no more than twice the cap |
| `Columns.StatementsWriteTheseColumns` | db/queries/complete_job.sql:10-21 | A claim, renewal, completion, failure, reclaim or insert writes a row if and only if its columns are as stated one by one |
| `Submissions.RedundantIffStale` | api/src/routes.ts:101-147 | A run contains a live job of an already analysed identity if and only if some enqueue inserted after its cache check had gone stale |
| `Submissions.TwiceIffStaleSucceeded` | api/src/routes.ts:101-147 | At any moment of any run, some identity has two succeeded jobs if and only if some job that was inserted after its submission's cache check had gone stale has succeeded |
| `Submissions.AtomicSubmissionsSucceedOnce` | api/src/routes.ts:103-147 | When submissions run as one step, an identity has at most one succeeded job in every reachable state and no search is redundant |
| `Submissions.AnalysisIdIsFixed` | db/migrations/0002_usage_stats_dataset.up.sql:24-28 | Once an identity has an analysis, its id is the same in every later state |
| `Submissions.ReplayLogIsFixed` | api/src/store.ts:199-215 | The replay behind a job is stored before the job is and is the same in every later state |
| `Interleaving.ChecksGoStale` | api/src/routes.ts:103-142 | For any identity there is a run in which a submission is about to enqueue what has been analysed since its check |
| `Interleaving.SearchedTwice` | worker/battle_cloud_worker/queue.py:167-176 | For any identity and any two turn counts there is a run in which two jobs of the identity succeed and its analysis ends up with the first count beside the second document |
| `SkipLocked.FrontIsHead` | db/queries/claim_job.sql:35-37 | A row is the head that a lone claim takes if and only if it is the front of the build's queued rows in claim order |
| `SkipLocked.NoRowTwice` | db/queries/claim_job.sql:3-7 | At lock level, with or without concurrent joins, no two claimers ever hold or get the same row |
| `SkipLocked.ConcurrentClaimsPartition` | db/queries/claim_job.sql:29-38 | Any interleaving of n overlapping claims, all committing and without joins, gives distinct claimers the min(n, q) first of the q matching queued rows, in lock order, and changes nothing else |
| `SkipLocked.MissedIffPassedOver` | db/queries/claim_job.sql:29-38 | In any run with any joins, a finished claimer has no row, or one behind a row that is still queued at the end, if and only if it examined that row while a join had it locked |
| `SkipLocked.JoinHidesARow` | api/src/store.ts:231-236 | With a join holding the only queued row for a moment, a claimer can find nothing although the queue is not empty |
| `SkipLocked.CommitIsClaim` | db/queries/claim_job.sql:22-38 | What committing a held row does to the jobs is a claim that the cluster enables, made when the statement began |
| `SkipLocked.RunIsClaims` | db/queries/claim_job.sql:3-7 | To the jobs table, each step of any lock-level run is one claim of a claimable row or nothing |
| `Overtaking.BoundedOvertaking` | db/queries/claim_job.sql:22-38 | From a job's creation to its first claim, its build makes at most as many claims as the live jobs ahead of it had attempts left, when claims take the head and the clock ticks between creations |
| `Overtaking.KeysIncreaseWithTheClock` | db/migrations/0001_initial.up.sql:94 | If the clock ticks between creations, every new job comes after all jobs there are |
| `Remaining.LeftNeverRises` | db/queries/reclaim_expired.sql:11-29 | No step raises the total of attempts left ahead of a place in the queue |
| `Remaining.ClaimSpendsOne` | db/queries/claim_job.sql:22-24 | A claim ahead of that place lowers the total |
| `Lease.PunctualWorkerKeepsItsJob` | worker/battle_cloud_worker/queue.py:77-93 | While every renewal commits no later than the slack after it is due, the worker's job is never reclaimed, no heartbeat finds it gone, and the claim still holds when it reports |
| `LateRenewal.SlackIsExact` | worker/battle_cloud_worker/queue.py:78-93 | For a given lease and lateness of renewals, some run loses a job under analysis if and only if the lateness exceeds the lease less one second for leases up to three seconds, and seven tenths of the lease for longer ones |
| `Queue.HeadExists` | db/queries/claim_job.sql:30-37 | Whenever the build has a claimable row, one of them precedes all others |
| `Queue.HeadIsFirst` | db/queries/claim_job.sql:32-35 | The head is the oldest waiting job of the same engine tag and dataset, of two created together the one with the smaller id |
| `Queue.Database.ClaimJob` | db/queries/claim_job.sql:22-41 | Takes the oldest of the jobs that wait for this build, the smaller id of two created together, and writes the claim columns of that row alone; or finds that none waits and changes nothing |
| `Queue.Database.HeartbeatJob` | db/queries/heartbeat.sql:7-13 | Finds a row exactly for the owner, and then moves the end of its lease and no other column or row |
| `Queue.Database.CompleteJob` | db/queries/complete_job.sql:10-22 | Found exactly for the owner; the job is succeeded with this analysis, without error or claim, its origin and attempts kept, and no other row changes |
| `Queue.Database.FailJob` | db/queries/fail_job.sql:10-24 | Found exactly for the owner; the job is queued if the failure may be retried and attempts are left, failed otherwise, with the kind and detail passed and its origin and attempts kept; says which judgement breaks the invariants |
| `Queue.Database.ReclaimExpired` | db/queries/reclaim_expired.sql:11-30 | Every abandoned job is queued with its old error below the cap, and failed with a dead letter naming attempts and last worker at the cap; no other row changes and none is left abandoned |
| `Queue.Database.EnqueueJob` | db/queries/enqueue_job.sql:10-24 | Joins the identity's live job and changes nothing, or, if there is none, inserts a queued row with what was passed, stamped with the clock, behind every older row |
| `Queue.Database.UpsertAnalysis` | worker/battle_cloud_worker/queue.py:167-195 | The identity's one row holds the document and telemetry; a new row takes the document's turn counts and the time, an existing one keeps its own |
| `Queue.Database.UpsertReplay` | api/src/store.ts:191-205 | A stored replay stays, a new one is stored as passed, and no other changes |
| `WorkerLoop.Heartbeat.Run` | worker/battle_cloud_worker/queue.py:77-93 | Either no renewal was skipped and the lease runs from the last one, or the job really was reclaimed; nothing else happened to the row |
| `WorkerLoop.Worker.ReportSuccess` | worker/battle_cloud_worker/queue.py:162-203 | Upsert, complete and rollback together amount to the all-or-nothing report and keep the invariants |
| `WorkerLoop.Worker.ReportFailure` | worker/battle_cloud_worker/queue.py:211-224 | Exactly for the owner: the kind and the first 2000 characters of the detail are recorded, and the job waits again only after the two kinds worth a retry |
| `WorkerLoop.Worker.RunOnce` | worker/battle_cloud_worker/queue.py:102-145 | Nothing waits and nothing changed; or the first in line was claimed and has succeeded with the text, counts and telemetry the engine returned, failed as the engine or the missing replay says, or was lost to a reclaim after its lease ran out |
| `WorkerLoop.Worker.RunUntilEmpty` | worker/battle_cloud_worker/queue.py:239-256 | Terminates; the count is the number of claims and is paid for out of the build's remaining attempts; afterwards nothing of the build is queued, no lease has run out, what runs was running before, and every job that waited or was abandoned with attempts left has been attempted; other builds' jobs saw at most a reclaim |
| `WorkerLoop.TurnSpendsOne` | worker/battle_cloud_worker/queue.py:251-256 | Whatever becomes of a claimed job, the attempts its build has left go down |
| `Routes.Api.Submit` | api/src/routes.ts:101-147 | A cache hit is free and changes nothing; a refusal happens exactly at the limit and tells the wait from a second reading of the clock; an admitted submission fails exactly if its replay is neither stored nor fetched, and else joins the live job or inserts one that counts the turns of the stored replay, or of the fetched one it stores; no search becomes redundant |
| `Routes.Api.AnalysisByIdentity` | api/src/store.ts:120-136 | Finds an analysis of the identity if and only if there is one |
| `Routes.InsertStaysUseful` | api/src/routes.ts:103-142 | Enqueueing an identity without an analysis leaves no redundant search |
| `RateLimit.NoReturnRefinesHistory` | api/src/ratelimit.ts:43-68 | With any clocks, as long as no call reads one in a window that an earlier purge has passed, the purged table answers every call as the full history would |
| `RateLimit.ReturningIsForgotten` | api/src/ratelimit.ts:64-68 | Three calls, one purge and two windows: a call that returns to the purged window is let through where the full history refuses it |
| `RateLimit.PurgedTableRefinesHistory` | api/src/ratelimit.ts:43-68 | For calls at nondecreasing times, with purges by any instance after any call, the table answers every call as the full history would |
| `RateLimit.RateLimiter.TryConsume` | api/src/ratelimit.ts:44-49 | True if and only if fewer than `limit` earlier calls of the key were let through in the same window, by whichever instance |
| `RateLimit.Store.ConsumeRateLimit` | api/src/store.ts:256-267 | The counter rises by one exactly when the call is allowed, which is when it was below the limit, and no other counter moves |
| `RateLimit.Store.SweepRateLimits` | api/src/store.ts:274-277 | The counters of closed windows are gone, all others are as they were, and the answer is how many rows went |
| `RateLimit.WindowLimit` | api/src/store.ts:262-263 | No key gets more than `limit` calls into one window |
| `RateLimit.WindowIsAligned` | api/src/ratelimit.ts:39-41 | The window a time lies in is the one that starts at a multiple of the window length and contains it |
| `RateLimit.IntervalLimit` | api/src/ratelimit.ts:12-17 | Any interval of one window's length, aligned or not, lets at most twice the limit through |
| `RateLimit.RetryAfterIsLeast` | api/src/ratelimit.ts:55-58 | The answer is the least number of seconds after which the clock is in a later window, between one and the window's length rounded up |
| `Paging.UnhiddenIsReturned` | api/src/store.ts:161-173 | At any precision and under any churn, a row that is present throughout and that no table met hides is returned exactly once |
| `Paging.PagingIsExactlyOnce` | api/src/routes.ts:199-216 | With whole-millisecond timestamps, following the cursors returns every row present throughout exactly once, whatever else comes and goes |
| `Paging.NothingIsRepeated` | api/src/store.ts:161-173 | At any precision rows come in descending order of creation time and id and never twice, whatever is inserted or deleted between requests |
| `Paging.ReturnedUnlessSkipped` | api/src/store.ts:187 | At any precision a row present throughout is returned once, or not at all exactly when it lies between a page's last row and that row's truncated cursor |
| `Paging.SomethingIsSkippedIff` | api/src/routes.ts:199-216 | At the page sizes the list accepts, some complete session over an unchanging table skips some row if and only if the table hides a row, and the same holds of page size 1 alone |
| `Paging.MissedIffHidden` | api/src/store.ts:161-187 | With the store's unbounded limit, some page size makes a complete session over an unchanging table miss a given row if and only if the table holds a row that hides it |
| `Paging.SingleRowSessions` | api/src/store.ts:168-187 | With one row a page, a row is missed exactly when the newest row of its millisecond hides it; between two milliseconds that is when any row hides it |
| `Paging.LostBetweenRequests` | api/src/store.ts:55-76 | For any two stored rows of which the newer hides the older, a complete session that returns the newer and never the older |
| `Paging.SkippedSharesAMillisecond` | api/src/store.ts:187 | A row that is not returned shares the millisecond of the last row of a page that was not the last page |
| `Paging.SessionEnds` | api/src/routes.ts:208-216 | Without inserts, a session has at most one request more than the table fills pages |
| `Paging.SessionIsTraversal` | api/src/routes.ts:199-216 | What a client sees through cursor text is a keyset traversal of the tables it met |
| `Paging.TraversalIsSession` | api/src/routes.ts:199-216 | Conversely every keyset traversal of stored rows is what a client sees through cursor text |
| `Paging.CursorMeansCut` | api/src/store.ts:55-76 | A cursor handed out is accepted by the next request and bounds it at the last row, cut to its millisecond |
| `Paging.RefusedOrBounded` | api/src/routes.ts:199-209 | A malformed cursor is refused with its cause, and an accepted one answers with rows below its bound, never with the first page over again |
| `Paging.HandedOutIsAccepted` | api/src/store.ts:65-76 | A cursor handed out for a stored row decodes to the timestamp and id it was made from, whatever else `Date.parse` reads |
| `Keyset.PageIsPage` | api/src/routes.ts:208-215 | A page holds the newest matching rows, and promises another exactly when rows are left over |
| `Keyset.VisitedUnlessInGap` | api/src/store.ts:168-171 | A row present throughout a finished traversal is visited once, or zero times exactly when it falls into a gap |
| `Cursor.CursorRoundTrip` | api/src/store.ts:55-76 | For any `Date.parse`, decoding gives the encoded cursor back if and only if its timestamp has no bar and parses and its id has the accepted shape |
| `Cursor.DecodedIsWellFormed` | api/src/store.ts:65-76 | For any `Date.parse` and any text, an accepted cursor has a parsing timestamp without a bar and an id of the accepted shape, and encodes to text that decodes to itself |
| `Cursor.DecodedCursor` | api/src/store.ts:65-76 | For any `Date.parse`, text that splits at its first bar is refused for its timestamp, else for an id that is not 36 hexadecimal digits and dashes, else decoded to its two halves |
| `Cursor.NoBarIsRefused` | api/src/store.ts:67-68 | Text without a bar is refused as such |
| `Uuid.RoundTrip` | api/src/store.ts:74 | The canonical text of a row id reads back as that id |
| `Base64Url.RoundTrip` | api/src/store.ts:56 | base64url (section 5 of RFC 4648) loses nothing |
| `Base64Url.SameBits` | api/src/store.ts:56 | Three octets and their four sextets spell the same bits, and shorter groups are filled up with zero bits |
| `Base64Url.GroupByGroup` | api/src/store.ts:56 | Groups of three octets are encoded one after the other |
| `Utf8.RoundTrip` | api/src/store.ts:56 | UTF-8 loses nothing for any string |
| `IsoTime.IsoRoundTrip` | api/src/store.ts:187 | The printed timestamp keeps exactly the milliseconds |
| `IsoTime.IsoForm` | api/src/store.ts:187 | Every field of the printed timestamp is at its place, with the separators of ISO 8601 between them |
| `IdentityKey.KeyInjective` | api/src/contract/identity.ts:102-104 | Two identities have the same key if and only if all nine fields agree |
| `IdentityKey.KeyText` | api/src/contract/identity.ts:52-62 | The key is the nine named fields in their declared order, numbers in decimal and texts percent-encoded |
| `IdentityKey.JoinInjective` | api/src/contract/identity.ts:98-103 | Parts free of the separator can be read back from the joined text |
| `UriComponent.EncodeInjective` | api/src/contract/identity.ts:103 | Percent-encoding (section 19.2.6.4 of ECMA-262, section 2.1 of RFC 3986) tells different strings apart |
| `UriComponent.EncodeIsSafe` | api/src/contract/identity.ts:98-101 | No separator survives percent-encoding |
| `UriComponent.SeparatorsDoNot` | api/src/contract/identity.ts:98-103 | Separators, space and percent sign are escaped in capital hexadecimal digits |
| `UriComponent.OnlyTheseStay` | api/src/contract/identity.ts:103 | A character is printed as itself if and only if it is a letter, a digit or one of nine marks |
| `Numerals.SignedInjective` | api/src/contract/identity.ts:103 | Different integers print differently |

## Left out

- The engine, its adapter and the classification of its exceptions: its answer is a parameter.
- HTTP handling, request schemas, CORS, the launcher and its sweep, telemetry, profiles, duration estimates and configuration parsing.
- Fetching replays and counting turns: parameters of `Routes.Api`.
- Migrations as programs, Terraform, containers and the web client.
- `cancelled` jobs: no statement produces the state, and the row invariant excludes it.
- `run_forever`: the loop never ends; its rounds are those of the drain loop in another order, and any order of rounds is a run of `Cluster`.
- Postgres internals: an autocommit statement is one step, a unique index makes a second uncommitted upsert of an identity wait, and row locks appear in `SkipLocked` only, where a claim reads its candidates when it begins and examines each once.
- Deleting replays and the cascades that follow: no statement of the program deletes one.
- Concurrency in the class layer: other processes act there by reclaiming only; all of their other steps are in `Cluster`.
- Floating point: the renewal period is 300 milliseconds per second of lease, without the rounding of the product.
- Rate limiting when an instance returns to a window that another has purged: the purged counter starts anew (`RateLimit.ReturningIsForgotten`). Calls that overlap in time are taken one statement after another, each with its purge.
- Text that differs from what the program prints: decoding of padded or mixed base64 beyond skipping unknown characters, and identifiers in other forms than the canonical one. What `Date.parse` reads is a parameter of `Cursor`; sessions in `Paging` send back the cursors they were given, whose dates are in the printed form.
- Calendars: timestamps are packed calendar fields, so their order and printing are exact but the length of months is not modelled.
- Claim times in `Cluster`: a claim is stamped with the clock of its step, where Postgres stamps the start of the statement; `SkipLocked` has both moments.
- Overtaking.BoundedOvertaking: assumes claims that take the head and a clock that ticks between creations, because jobs created in the same instant are ordered by random ids and because a claim that runs beside a join or another claim may skip a locked row.
- Paging.MissedIffHidden: ranges over all page sizes, also greater than the 50 a request may ask for, because which sizes up to 50 miss a given row depends on where all the page boundaries fall; `Paging.SomethingIsSkippedIff` and `Paging.SingleRowSessions` are about accepted sizes.
- Paging.PagingIsExactlyOnce: needs whole-millisecond timestamps, because the cursor carries no more; `Paging.UnhiddenIsReturned` and `Paging.MissedIffHidden` have no such condition.
