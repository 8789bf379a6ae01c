# Rate limiting, scheduler lease, suspension and exports

This project models four stateful parts of a NestJS back end and proves what they keep over whole
runs: with other processes' steps between any two of their own, with calls that fail before or after
they take effect, and with processes that stop anywhere. `dafny verify dfyconfig.toml` checks it.

**Rate limiting** (`MemoryRateLimiter`, `RedisRateLimiter`, `ResilientRateLimiter`, `RateLimitProcess`,
`RateLimitSystem`, `RateLimitBound`, `RateLimitProtocol`, `RateLimitGuard`, `RateLimitFailover`). An in-memory window
counter over an insertion-ordered map of bounded size, a Redis counter driven by INCR and a separate
EXPIRE, and the failover machine that chooses between them. Classes hold the fields the source
mutates and are proved, segment by segment between awaits, against functions; a process is those
segments plus its requests in flight, a system is N processes and one Redis, and a run is any list of
labels. The main result bounds what a client gets admitted by the whole fleet; others say who answers a
request whose Redis call fails, and when Redis is tried again.

**Scheduler lease** (`SchedulerLock`, `SchedulerBootstrap`, `ScheduleRuns`). One row per schedule,
taken over once expired, released by setting its expiry to the epoch and swept by a cleanup. The
table refines a plain lease map. The execution of an acquire and the arrival of its reply are steps of
their own, and executions of one schedule keep apart up to the clock skew as long as they keep to
their TTL.

**Suspension** (`SuspensionStore`, `Suspension`, `SuspensionBatch`, `SuspensionRestore`,
`SuspensionRetry`, `SuspensionColumns`, `SuspensionTally`, `SuspensionShipped`, `SuspensionRecovery`,
`SuspensionPair`, `SuspensionService`).
Rows with their foreign keys, one backup per table and suspension, tables processed children first,
backups restored parents first. Every statement consumes one unit of a budget, so a theorem for all
budgets is a theorem for a crash before any statement. The invariant `Recoverable` says that no row is
lost; when a batch keeps it, and which rows a restore or a series of stopped restores gives back, are
proved as equivalences, for any tables and then for the shipped ones.

**Exports** (`ExportLifecycle`, `ExportSafety`, `ExportLeftovers`, `ExportService`, `ExportProcessor`,
`ExportPromises`).
Workers (several per request once it is reclaimed), the cleanup job and download attempts race on one
status field by guarded updates, with files beside it. Service methods are accountable for exactly the
labels they add to the run, so what is proved of runs holds of them.

**HTML escaper** (`HtmlEscape`). The escaper and a decoder of character references.

## What came out

Where the code does not do what its comments say, the code is modelled and the condition proved.

- The comment that parents are restored before children to satisfy foreign keys holds for channels and
  their profile only. `ScheduledNotification` refers to `NotificationLog` and both are keyed by
  `identityId`, so their backups keep the order of the query, which names none. A restore after the
  two shipped batches gives back all rows if and only if no scheduled notification names a log, or the
  logs happen to be listed first (`ShippedRoundTrip`); otherwise the row is lost (`ShippedPairIsLost`).
- A restore that was stopped can be called again and comes to the same database if the backups left
  are listed in the same order (`RestoreResumes`, `RetriesReachTheSame`). The query promises no such
  order, and a retry that lists them otherwise can lose a row the first attempt would have given back
  (`LinkedPairRetry`, `ShippedRetryIsLost`). `ShippedRetries` is exact for any number of attempts; an
  order in the query would settle it (`OrderedIsInTime`).
- Failed upserts are swallowed and the backup is marked used: `RowRestoredIff` says row by row which
  rows come back, `LinkedPairRoundTrip` shows one that does not.
- A delivery log is in no registry and loses its profile for good (`UnregisteredReferenceIsCleared`).
  The identity's own rows are not affected, and the shipped batches lose none of them.
- A second suspension call under the same id stops at the first table that has rows and a backup
  already (`AnonymizeFinishes`); nothing is lost by it.
- A COMPLETED export can lose its file: if the completing update commits and only its reply is lost,
  the worker cleans up after itself (`LostReplyLosesFile`). This is the only way
  (`CompletedExportIsAvailable`). The status page then offers a download that is refused, because a
  link is signed only for a file that is there (`StatusAgreesWithDownload`, `ShownWithoutFile`).
- The cleanup job and the download path mark an export EXPIRED even if its file cannot be deleted.
  Which files are left, and that no later step deletes them, is exact (`ExpiredFileStaysIff`).
- "No requests are left stuck in PROCESSING" (`gdpr-request-processor.service.ts:106`) fails for a
  worker that is alone with its request exactly when neither the completion nor either failure mark is
  executed (`LeftProcessingIff`). "Each request is processed once" (line 104) holds of completions, not
  of work: a stale request is worked on again.
- A lock's TTL counts from before the acquire call. If the reply takes longer, jobs start while another
  instance's are running within its TTL (`LateReplyOverlaps`).
- A cleanup of stale locks can grant an acquire that would have been refused if that acquire read its
  clock earlier (`CleanupFlipsAcquire`, and `CleanupGrantsEarlier` for a history). Without such old
  readings it changes no answer.
- A lost EXPIRE makes a Redis counter deny its key for good once the limit is reached
  (`LostExpireDeniesForever`). It never admits more.
- With several window lengths the in-memory limiter evicts by age, not by expiry
  (`EvictsByAgeNotExpiry`).

## Assumptions

- The acquire transaction is one atomic step, as its comment says; no isolation level is passed where
  the transaction is opened (`postgres-scheduler-lock.service.ts:60`).
- An instance has at most one execution of a schedule in flight; `executeJob` has no guard of its own
  and an acquire extends a lease its instance holds.
- Clocks of one process do not run backwards; clocks of scheduler instances are off by at most ε. All
  processes of the rate limiter and all parties of an export read one clock.
- A call that failed for its caller has no effect at a later time: a command or statement is executed
  before its caller learns of the failure, or never.
- Storage keys are fresh, and all workers and the download service share one storage.
- An identity has at most one notification profile, ids are not empty, and nobody else writes an
  identity's rows or the backups between the calls of a suspension.
- The shipped batches run under one suspension id and the second only after the first has finished, as
  the request that the second one processes is created after it (`gdpr-suspension.service.ts:199-205`).

## Model

| member | source | states |
|---|---|---|
| RateLimitBound.SystemBound | src/common/rate-limit/resilient-rate-limiter.ts:110-207 | In every run of N processes on one Redis, any interleaving at awaits and any failures, a key gets at most (2·(N+1) + evictions)·limit admitted requests in any half-open window |
| RateLimitBound.SystemBoundWithoutEvictions | src/common/rate-limit/resilient-rate-limiter.ts:110-207 | 2·(N+1)·limit as long as no process evicts the key inside the window |
| RateLimitBound.AdmittedByOneCounter | src/common/rate-limit/resilient-rate-limiter.ts:110-134 | Each admitted request was granted by exactly the counter its settlement names: its own INCR with a count within the limit, or its own consume the process's memory allowed |
| RateLimitBound.RunBacked | src/common/rate-limit/resilient-rate-limiter.ts:155-207 | Every answer of every run (allowed, denied, refused) is the one the backend it came from fixed, and in-memory buckets are those of the recorded trace |
| RateLimitFailover.RefusedIff | src/common/rate-limit/resilient-rate-limiter.ts:115-125 | In every run a request is answered by the fail-closed error if and only if its own Redis call failed, not made as a probe, and fallback is disabled; with fallback enabled such a request is answered by memory |
| RateLimitFailover.FailedCallAnsweredFromMemory | src/common/rate-limit/resilient-rate-limiter.ts:118-125 | With fallback enabled that answer comes in the very segment in which the call fails, is the one a lone window counter fed with the key's own requests gives as long as the key was not evicted, and leaves the process in fallback |
| RateLimitFailover.StepSettles | src/common/rate-limit/resilient-rate-limiter.ts:110-134 | Exactly which steps settle a request, and who answers it then: memory, Redis or nobody |
| RateLimitFailover.ArrivalGoes | src/common/rate-limit/resilient-rate-limiter.ts:110-134 | Where an arrival goes: memory under that driver, Redis in primary mode, and in fallback one probe at a time and otherwise memory |
| RateLimitFailover.ProbeIsSent | src/common/rate-limit/resilient-rate-limiter.ts:176-187 | In every run a process in fallback that is not probing probes with the next request a cooldown later |
| RateLimitFailover.AnsweredProbeRestores | src/common/rate-limit/resilient-rate-limiter.ts:187-199 | A probe that Redis answers, with the EXPIRE if it created the counter, restores redis_primary, and its request has the answer of Redis |
| RateLimitFailover.NoProbeWhileCooling | src/common/rate-limit/resilient-rate-limiter.ts:183-185 | Until the cooldown is over no new request of the process asks Redis, in every continuation |
| RateLimitFailover.BootFallsBackIff | src/common/rate-limit/resilient-rate-limiter.ts:63-101 | A process starts in fallback if and only if Redis is its driver, unhealthy, and fallback is enabled; it then cools down first |
| RateLimitGuard.TierBound | src/common/guards/rate-limit.guard.ts:81-97 | The same bound for a subject of a tier when all requests come through the guard, with the tier's own limit and window |
| RateLimitGuard.GuardedUse | src/common/guards/rate-limit.guard.ts:86-97 | All requests for one counter carry one limit and one window, because the key embeds the tier name |
| RateLimitGuard.ParseKeyed | src/common/guards/rate-limit.guard.ts:86-88 | A key can be read back to its tier and subject, also when the subject contains colons (an IPv6 address) |
| RateLimitGuard.KeysApart | src/common/guards/rate-limit.guard.ts:88 | Two requests share a counter if and only if tier and subject are the same |
| RateLimitGuard.ConfiguredTiersWellNamed | src/config/rate-limit.config.ts:60-163 | The seven configured tier names differ and contain no colon, which is what the two rows above need |
| RateLimitGuard.RateLimitHeaders | src/common/guards/rate-limit.guard.ts:154-260 | Headers are suppressed exactly for another driver, unhealthy Redis or a failed read; the remaining value is the counter's as GET found it, whatever runs between GET and TTL; Retry-After exactly when none remain and a TTL is known |
| RateLimitGuard.RetryAfterHonest | src/common/guards/rate-limit.guard.ts:176-178 | Waiting for Retry-After and half a second is enough to be admitted; coming back half a second before it is still denied |
| RedisRateLimiter.RemainingIsExact | src/common/guards/rate-limit.guard.ts:235-246 | If the guard reads r remaining, then of the INCRs that follow in that lifetime, from any process, exactly the first r are admitted |
| RedisRateLimiter.AdmittedBounded | src/common/rate-limit/redis-rate-limiter.ts:56-71 | Two limits per half-open window for every command log: any interleaving of processes, any delay or loss of EXPIRE |
| RedisRateLimiter.LifetimeAdmits | src/common/rate-limit/redis-rate-limiter.ts:58-71 | A lifetime of the counter admits exactly its count capped by the limit, so never more than the limit |
| RedisRateLimiter.LifetimeLastsAWindow | src/common/rate-limit/redis-rate-limiter.ts:61-63 | A counter that has an expiry lives at least one window from its creation |
| RedisRateLimiter.WindowFromExpire | src/common/rate-limit/redis-rate-limiter.ts:58-63 | Once an EXPIRE has landed the counter counts every INCR of the window that starts there, and an INCR after that window starts again at one |
| RedisRateLimiter.LostExpireDeniesMore | src/common/rate-limit/redis-rate-limiter.ts:61-63 | Whatever is admitted without the counter's EXPIREs is admitted with them: losing one can only deny more |
| RateLimitProtocol.OneExpireOutstanding | src/common/rate-limit/redis-rate-limiter.ts:58-63 | In every run at most one EXPIRE per key is outstanding over all processes |
| RateLimitProtocol.ExpireLandsOnOwnCounter | src/common/rate-limit/redis-rate-limiter.ts:61-63 | However late, an EXPIRE lands on the counter its own request created, and gives it a full window from then on |
| RateLimitProtocol.LostExpireDeniesForever | src/common/rate-limit/redis-rate-limiter.ts:61-68 | A counter whose EXPIRE was lost and that has reached the limit denies its key at every later moment of every continuation |
| RateLimitProtocol.RunImmortal | src/common/rate-limit/redis-rate-limiter.ts:58-63 | A counter nobody owes an EXPIRE to never gets an expiry and its count never falls |
| RateLimitProtocol.StepSettlesOnce | src/common/rate-limit/resilient-rate-limiter.ts:110-134 | No step changes an answer already given, and a request in flight belongs to one process |
| RateLimitProtocol.RunDistinct | src/common/rate-limit/resilient-rate-limiter.ts:110-134 | Requests keep their identity in every run |
| RedisRateLimiter.RedisServer.Incr | src/common/rate-limit/redis-rate-limiter.ts:58 | The reply is one more than the live count, or 1 for a missing or expired key |
| RedisRateLimiter.RedisServer.Expire | src/common/rate-limit/redis-rate-limiter.ts:62 | One EXPIRE is appended to the history that the stored counters replay |
| RedisRateLimiter.RedisLimiter.Consume | src/common/rate-limit/redis-rate-limiter.ts:49-78 | Which commands are sent and what the caller learns for each place a call can fail, with other processes' commands in between; an allowed answer means the INCR had room |
| RateLimitSystem.ProbesInEveryRun | src/common/rate-limit/resilient-rate-limiter.ts:176-240 | In every run at most one probe is in flight per process, probe starts are a cooldown apart, and the log throttle has suppressed no message |
| RateLimitSystem.ModesInEveryRun | src/common/rate-limit/resilient-rate-limiter.ts:56-101 | In every run the mode is memory_primary exactly under the memory driver, and redis_primary always if fallback is disabled |
| RateLimitSystem.MemoryDriverNeverCallsRedis | src/common/rate-limit/resilient-rate-limiter.ts:110-113 | Under the memory driver no request ever waits for Redis and Redis executes nothing |
| RateLimitProcess.ModeMoves | src/common/rate-limit/resilient-rate-limiter.ts:115-125 | Exactly what moves the mode: the decision of a probe's Redis call restores redis_primary, a failed primary call with fallback enabled activates memory_fallback, nothing else does |
| RateLimitProcess.ReactModes | src/common/rate-limit/resilient-rate-limiter.ts:110-240 | Every segment keeps the mode among those the configuration allows |
| RateLimitProcess.ReactProbes | src/common/rate-limit/resilient-rate-limiter.ts:176-240 | Every segment keeps the probe discipline, also when a late failure of an old request re-activates fallback during a probe |
| RateLimitProcess.BootModes | src/common/rate-limit/resilient-rate-limiter.ts:63-101 | Start-up picks an allowed mode |
| RateLimitProcess.BootProbes | src/common/rate-limit/resilient-rate-limiter.ts:63-101 | Start-up establishes the probe discipline |
| ResilientRateLimiter.ResilientLimiter.constructor | src/common/rate-limit/resilient-rate-limiter.ts:52-61 | Initial mode by driver, no probe pending, empty memory |
| ResilientRateLimiter.ResilientLimiter.ModuleInit | src/common/rate-limit/resilient-rate-limiter.ts:63-101 | Falls back at start-up exactly when the driver is Redis, Redis is unhealthy and fallback is enabled |
| ResilientRateLimiter.ResilientLimiter.ConsumeWithMemory | src/common/rate-limit/resilient-rate-limiter.ts:155-174 | The in-memory decision; nothing but the buckets changes |
| ResilientRateLimiter.ResilientLimiter.BeginConsume | src/common/rate-limit/resilient-rate-limiter.ts:110-134 | The segment up to the first await: memory, Redis, or a probe that claims the flag |
| ResilientRateLimiter.ResilientLimiter.RedisDecided | src/common/rate-limit/resilient-rate-limiter.ts:187-199 | A decided probe restores Redis; a decided primary call changes nothing |
| ResilientRateLimiter.ResilientLimiter.RedisFailed | src/common/rate-limit/resilient-rate-limiter.ts:118-125 | Fail closed without fallback, otherwise fall back and answer from memory; a failed probe yields to memory and delays the next one |
| ResilientRateLimiter.ResilientLimiter.CleanupTimer | src/common/rate-limit/resilient-rate-limiter.ts:136-145 | The timer removes exactly the expired buckets |
| MemoryRateLimiter.GrantsBounded | src/common/rate-limit/memory-rate-limiter.ts:52-80 | Over every trace, a key gets at most (2 + its own evictions)·limit in any half-open effective window |
| MemoryRateLimiter.LifetimeAccount | src/common/rate-limit/memory-rate-limiter.ts:60-79 | A bucket's count is exactly what it admitted since it was opened, and never above the limit |
| MemoryRateLimiter.DecisionsMatchCounter | src/common/rate-limit/memory-rate-limiter.ts:52-80 | Refinement: while a key is not evicted, every decision on it is that of a lone unbounded window counter fed with its own requests |
| MemoryRateLimiter.TimersChangeNothing | src/common/rate-limit/memory-rate-limiter.ts:88-98 | Cleanup timers fired anywhere change no decision, not even which bucket is evicted |
| MemoryRateLimiter.SizeBounded | src/common/rate-limit/memory-rate-limiter.ts:100-115 | The map never exceeds its capacity (one bucket when maxEntries is 0) |
| MemoryRateLimiter.EvictsAtMostOne | src/common/rate-limit/memory-rate-limiter.ts:100-115 | One consume evicts at most one live bucket, the oldest, and only from a full map |
| MemoryRateLimiter.EvictsEarliestExpiry | src/common/rate-limit/memory-rate-limiter.ts:92-115 | With one effective window the evicted bucket is one that would expire earliest |
| MemoryRateLimiter.EvictsByAgeNotExpiry | src/common/rate-limit/memory-rate-limiter.ts:107-114 | With two effective windows it need not be: a concrete trace evicts the bucket that expires last |
| MemoryRateLimiter.StepOnKey | src/common/rate-limit/memory-rate-limiter.ts:52-98 | What any event does to the bucket of any one key, its own request or another's |
| MemoryRateLimiter.GrantsCovered | src/common/rate-limit/memory-rate-limiter.ts:52-80 | The bound in windows, without products |
| MemoryRateLimiter.RunWellFormed | src/common/rate-limit/memory-rate-limiter.ts:34 | Insertion order and entries agree after every trace |
| MemoryRateLimiter.WindowLasts | src/common/rate-limit/memory-rate-limiter.ts:58-70 | A window opened by a request lasts exactly as long as the request asks, but no less than the configured minimum |
| MemoryRateLimiter.MemoryLimiter.constructor | src/common/rate-limit/memory-rate-limiter.ts:38-41 | Defaults of 10000 entries and 60 seconds |
| MemoryRateLimiter.MemoryLimiter.Consume | src/common/rate-limit/memory-rate-limiter.ts:52-80 | The in-place consume is the specified decision and new map |
| MemoryRateLimiter.MemoryLimiter.OpenBucket | src/common/rate-limit/memory-rate-limiter.ts:60-70 | Room is made and a bucket created only when the key has no live one |
| MemoryRateLimiter.MemoryLimiter.Cleanup | src/common/rate-limit/memory-rate-limiter.ts:88-90 | Removes exactly the expired buckets, keeping the order of the rest |
| MemoryRateLimiter.MemoryLimiter.CleanupExpired | src/common/rate-limit/memory-rate-limiter.ts:92-98 | The delete-while-iterating loop computes the filtered map |
| MemoryRateLimiter.MemoryLimiter.EnsureCapacity | src/common/rate-limit/memory-rate-limiter.ts:100-115 | The eviction loop drops exactly the first keys in insertion order that exceed the capacity |
| MemoryRateLimiter.MemoryLimiter.GetBucketCount | src/common/rate-limit/memory-rate-limiter.ts:120-122 | The number of entries |
| ScheduleRuns.RunsApart | src/infrastructure/scheduler/postgres-scheduler-lock.service.ts:53-158 | In every run of the system (takeovers, late and lost replies, late releases, crashes, cleanups) a schedule is granted again only once the earlier granted run has ended, or at most two clock skews before that run's TTL is over; no execution starts before its grant |
| ScheduleRuns.MutualExclusion | src/infrastructure/scheduler/scheduler.bootstrap.ts:212-256 | With exact clocks, two executions of a schedule that are both going on within their TTL are one and the same |
| ScheduleRuns.OverlapWithinTtl | src/infrastructure/scheduler/scheduler.bootstrap.ts:212-256 | With clocks off by at most ε, of two executions that both keep their TTL one is over at most 2ε after the other starts, however late the replies to their acquires |
| ScheduleRuns.OverlapIsReached | src/infrastructure/scheduler/postgres-scheduler-lock.service.ts:55-68 | The bound is sharp: a run that overlaps by exactly 2ε, for every ε up to half the TTL |
| ScheduleRuns.LateReplyOverlaps | src/infrastructure/scheduler/scheduler.bootstrap.ts:219-240 | Keeping the TTL is needed of both: with a reply later than the TTL a run starts while the next one, within its own TTL, is still executing, even with exact clocks |
| ScheduleRuns.StepKeeps | src/infrastructure/scheduler/postgres-scheduler-lock.service.ts:53-204 | Every step, the arrival of a reply among them, keeps the lease of a granted run standing until it runs out by the fastest clock |
| ScheduleRuns.RunKeeps | src/infrastructure/scheduler/postgres-scheduler-lock.service.ts:53-204 | So does every run |
| SchedulerLock.HistoryMatchesLeases | src/infrastructure/scheduler/postgres-scheduler-lock.service.ts:192-204 | Refinement: the table with its released epochs, touches and cleanups answers every acquire of every history as a plain lease map without cleanups does |
| SchedulerLock.GrantsMatchLeases | src/infrastructure/scheduler/postgres-scheduler-lock.service.ts:53-204 | The same from any agreeing pair of table and leases |
| SchedulerLock.CleanupFlipsAcquire | src/infrastructure/scheduler/postgres-scheduler-lock.service.ts:192-197 | Exactly when a cleanup changes an acquire that read its clock earlier: the row is another's and expires between the two readings |
| SchedulerLock.CleanupGrantsEarlier | src/infrastructure/scheduler/postgres-scheduler-lock.service.ts:192-197 | It happens: a three-statement history from the empty table whose last acquire is granted with the cleanup and refused without it |
| SchedulerLock.CrashBlocksAtMostTtl | src/infrastructure/scheduler/postgres-scheduler-lock.service.ts:66-98 | After a crashed holder's TTL an acquire is granted unless a third instance holds a live lease |
| SchedulerLock.OnlyTouchRecords | src/infrastructure/scheduler/postgres-scheduler-lock.service.ts:167-178 | The last run of a row that stays is what the last touch recorded, whoever acquires, releases or sweeps; a new row has none |
| SchedulerLock.LockService.AcquireLock | src/infrastructure/scheduler/postgres-scheduler-lock.service.ts:53-124 | Grant, takeover, extension, refusal and failed call, each with the new table; a grant keeps all others out until the expiry |
| SchedulerLock.LockService.ReleaseLock | src/infrastructure/scheduler/postgres-scheduler-lock.service.ts:134-158 | Only the holder's row is released, and a released lock keeps nobody out |
| SchedulerLock.LockService.UpdateLastRunTime | src/infrastructure/scheduler/postgres-scheduler-lock.service.ts:167-178 | Touches the last run only; missing rows and failures are swallowed |
| SchedulerLock.LockService.CleanupStaleLocks | src/infrastructure/scheduler/postgres-scheduler-lock.service.ts:192-204 | Deletes exactly the rows expired before the reading, and counts them |
| SchedulerBootstrap.LeaseStands | src/infrastructure/scheduler/postgres-scheduler-lock.service.ts:66-87 | No sequence of others' statements takes a lease away before its expiry |
| SchedulerBootstrap.LeaseHeldToRelease | src/infrastructure/scheduler/scheduler.bootstrap.ts:212-256 | From its acquire to its release an execution owns its lease, and after the release nobody is kept out |
| SchedulerBootstrap.ExecutionIsRecorded | src/infrastructure/scheduler/scheduler.bootstrap.ts:240-256 | The moment its jobs were through is on record as the last run of the row an execution releases, with others' statements in between |
| SchedulerBootstrap.RegistersEachOnce | src/infrastructure/scheduler/scheduler.bootstrap.ts:177-205 | Each schedule with a valid expression has one task for each time it is listed, in that order |
| SchedulerBootstrap.NotesEachOnce | src/infrastructure/scheduler/scheduler.bootstrap.ts:232-243 | Each job that throws is noted once for each time it is listed, in that order |
| SchedulerBootstrap.Bootstrap.ExecuteJob | src/infrastructure/scheduler/scheduler.bootstrap.ts:212-256 | With the lock every job is called once in order whichever throw and the release follows; without it, or when stopped, nothing is called and nothing released |
| SchedulerBootstrap.Bootstrap.RunJobs | src/infrastructure/scheduler/scheduler.bootstrap.ts:232-243 | A job that throws does not keep the next from being called |
| SchedulerBootstrap.Bootstrap.OnApplicationBootstrap | src/infrastructure/scheduler/scheduler.bootstrap.ts:72-98 | Only an enabled scheduler starts, with a task for each schedule whose expression is valid |
| SuspensionService.SuspendThenRestore | src/modules/gdpr/gdpr-anonymization.service.ts:54-146 | Round trip: after any suspend and restore calls, each dying anywhere, each row of the identity is unchanged or in an unused backup and each other row has lost at most a nullable reference; of any restores that follow, stopped anywhere, listing in any order and whatever fails, a row whose backup is used up is back if and only if it came back in the attempt that used it up, and the whole database if and only if all did and no reference of another row had been cleared |
| SuspensionService.LifeStaysRecoverable | src/modules/gdpr/gdpr-anonymization.service.ts:54-146 | Any number of calls in any order, each dying before any statement, keep the suspension recoverable; a suspend call and a first restore are asked the condition that is exact for them (SuspendRecoverableIff, RestoreRecoverableIff), a retry after a stopped restore only that it keeps the order of the backups and that no further upsert fails |
| SuspensionService.LifeStaysIntact | src/modules/gdpr/gdpr-anonymization.service.ts:54-146 | Every reference holds after any calls whatever: any tables, keys, listings and failures, each call dying before any statement |
| Suspension.SuspendKeepsRecoverable | src/modules/gdpr/gdpr-anonymization.service.ts:61-89 | No loss: if what a turn touches of the identity is backed up by then, a batch stopped anywhere leaves every row of the identity unchanged or in an unused backup, and every other row as it was up to nullable references |
| SuspensionBatch.SuspendRecoverableIff | src/modules/gdpr/gdpr-anonymization.service.ts:61-89 | Exactly when a finished batch loses nothing: if and only if each row without a backup that a turn removes or unlinks is of a table whose turn came no later |
| SuspensionBatch.OthersUnchangedIff | src/modules/gdpr/gdpr-anonymization.service.ts:61-89 | Exactly when a finished batch leaves the rows of others wholly as they were: if and only if none of them refers to a row it removes |
| SuspensionBatch.RunRows | src/modules/gdpr/gdpr-anonymization.service.ts:77-89 | In either mode the rows and references left by the tables so far are those of the start without everything their deletes, cascades and set-null rules concern |
| SuspensionBatch.TouchedIsSpoiled | src/modules/gdpr/gdpr-anonymization.service.ts:197-247 | A row touched before its own table's turn is in no backup as it was, at the end of any batch that finishes |
| SuspensionBatch.AnonymizeIntact | src/modules/gdpr/gdpr-anonymization.service.ts:61-89 | Every reference holds wherever any batch stops, whatever its tables and keys and in either mode |
| Suspension.ChildrenFirstCovers | src/modules/gdpr/gdpr-anonymization.service.ts:63-65 | Children first is what makes deleting the profile safe: for a batch that holds its channels only nullable references are left to ask about |
| SuspensionShipped.FirstKeepsRecoverable | src/modules/gdpr/gdpr-suspension.service.ts:673-703 | The tables taken when a suspension is requested lose nothing, stopped anywhere, in any sound database of the shipped schema |
| SuspensionShipped.SecondKeepsRecoverable | src/modules/gdpr/gdpr-suspension.service.ts:505-520 | Nor do the tables taken later, once the first batch has finished, whatever refers to the profile or the logs |
| SuspensionShipped.DeferredFitsIff | src/modules/gdpr/gdpr.registry.ts:640-665 | Taken by themselves they lose nothing if and only if no scheduled notification without a backup names a log of the identity |
| SuspensionRecovery.ShippedRetries | src/modules/gdpr/gdpr-suspension.service.ts:603-614 | Both shipped batches and any number of restores of which the last ends, exactly: the identity's rows are back if and only if the attempt that used up the backup of the scheduled notifications found the logs they name or took the logs first; the whole database if and only if besides no row of others referred to a deleted one |
| SuspensionRecovery.ShippedRoundTrip | src/modules/gdpr/gdpr-suspension.service.ts:603-614 | For one uninterrupted restore: if and only if no scheduled notification names a log of its own or the logs' backup is listed before theirs |
| SuspensionRecovery.OrderedIsInTime | src/modules/gdpr/gdpr-anonymization.service.ts:104-109 | What an order in the query would do: with the logs never listed last, however often it stops, nothing is lost |
| SuspensionPair.LinkedPairRoundTrip | prisma/schema.prisma:199-202 | The bad input as a run: a scheduled notification that names its log, both batches and a restore, all of which finish; it is given back if and only if the logs are listed first and its upsert does not fail, and no backup is left |
| SuspensionPair.LinkedPairRetry | src/modules/gdpr/gdpr-anonymization.service.ts:104-109 | The bad retry as a run: the same database, a restore that lists the logs first and stops after any number of statements, and one that ends and lists them last; the notification is given back if and only if the first came to a statement at all |
| SuspensionPair.ShippedRetryIsLost | src/modules/gdpr/gdpr-anonymization.service.ts:104-109 | With the shipped registry: the first restore stops before its first statement, the second one ends and the notification is lost |
| SuspensionPair.ShippedPairIsLost | src/modules/gdpr/gdpr.registry.ts:214-419 | With the shipped registry and the other order the notification is lost |
| SuspensionStore.NothingLost | src/modules/gdpr/gdpr-anonymization.service.ts:178-189 | What recoverable means for one row, the identity's or another's |
| SuspensionStore.OriginalIff | src/modules/gdpr/gdpr-anonymization.service.ts:117-143 | The database is the original one if and only if the identity's rows are back and no nullable reference of another row was cleared |
| SuspensionRestore.RowRestoredIff | src/modules/gdpr/strategies/gdpr-restoration.strategy.ts:29-55 | Row by row, for a restore stopped anywhere, any listing order and any failing upserts: its backup is used up if and only if there were statements enough to come to its mark, and then the row is back if and only if it was there unchanged, or its upsert did not fail and each row it refers to was there or listed earlier and came back itself |
| SuspensionRestore.RestoreIntact | src/modules/gdpr/strategies/gdpr-restoration.strategy.ts:44-54 | No row is ever there without its parents: every reference holds wherever any restore stops, from any store, with any listing and any failures |
| SuspensionRestore.RestoreStaysBacked | src/modules/gdpr/gdpr-anonymization.service.ts:117-143 | Whatever fails and wherever it stops, a restore leaves the rows of others and the backups it has not used up as they were |
| SuspensionRestore.RestoreRecoverableIff | src/modules/gdpr/gdpr-anonymization.service.ts:117-143 | A restore stopped anywhere loses nothing if and only if the rows of each backup it has used up came back |
| SuspensionRestore.AllBackIffWelcome | src/modules/gdpr/gdpr-anonymization.service.ts:111-112 | All rows come back if and only if each reference is there at the start or listed earlier, without asking what becomes of the rows referred to |
| SuspensionRetry.AttemptsGiveBackIff | src/modules/gdpr/gdpr-anonymization.service.ts:101-146 | Any number of attempts, each stopped anywhere and listing in any order: once its backup is used up a row is back if and only if it came back in the attempt that used it up; no later attempt makes up for it |
| SuspensionRetry.AttemptsGiveBackAllIff | src/modules/gdpr/gdpr-anonymization.service.ts:101-146 | Once nothing is left unused: all rows of the identity are back if and only if each came back in time, the whole database if and only if besides no reference of others had been cleared |
| SuspensionRetry.RestoreResumes | src/modules/gdpr/gdpr-anonymization.service.ts:104-143 | A stopped restore can be resumed: if all rows were welcome to it, they are welcome to a retry that takes the backups left in the same order, wherever it stopped |
| SuspensionRetry.RetriesStayWelcome | src/modules/gdpr/gdpr-anonymization.service.ts:104-143 | So any number of stopped attempts that carry on lose nothing |
| SuspensionRetry.RetriesReachTheSame | src/modules/gdpr/gdpr-anonymization.service.ts:101-146 | And an attempt that then ends comes to the same database as one uninterrupted restore |
| SuspensionRestore.RestoreGivesBackIff | src/modules/gdpr/strategies/gdpr-restoration.strategy.ts:29-55 | All rows at once: a restore that ends gives back all rows of the identity if and only if each was there unchanged, or its upsert does not fail and each row it refers to was there or is listed earlier; the whole database if and only if besides the rows of others were unchanged |
| SuspensionRestore.RestoreKeepsRecoverable | src/modules/gdpr/gdpr-anonymization.service.ts:101-146 | A restore to which all rows are welcome keeps the suspension recoverable wherever it stops |
| SuspensionRestore.RestoreFinishes | src/modules/gdpr/gdpr-anonymization.service.ts:101-146 | Left alive for one statement per row and backup a restore ends, whatever fails |
| SuspensionRestore.RowsAccount | src/modules/gdpr/strategies/gdpr-restoration.strategy.ts:29-55 | The account of the rows of one backup behind it, for every number of statements: of the rows taken up exactly those are back that come back |
| SuspensionRestore.RunLeavesOthers | src/modules/gdpr/strategies/gdpr-restoration.strategy.ts:29-55 | Rows whose upsert fails and rows of models without a backup stay what they were |
| SuspensionRestore.RestoreAgainRestoresNothing | src/modules/gdpr/gdpr-anonymization.service.ts:104-109 | After a finished restore a further call restores 0 rows and changes nothing |
| SuspensionTally.RestoreReports | src/modules/gdpr/strategies/gdpr-restoration.strategy.ts:27-57 | What a restore that ends reports, whatever fails: one summary for each backup in the order taken, with the number of its rows whose upsert does not fail, whose references are there in their turn and whose answer arrives; the total is the sum |
| SuspensionTally.WelcomeRestoreCountsAll | src/modules/gdpr/gdpr-anonymization.service.ts:114-145 | With all rows welcome and nothing failing the total is the number of rows listed |
| SuspensionTally.RunNamesValid | src/modules/gdpr/gdpr-anonymization.service.ts:117-134 | From any store the summaries name the backups with valid data in the order taken, restored if and only if the client knows the model; backups without stay unused |
| SuspensionRestore.UnregisteredReferenceIsCleared | prisma/schema.prisma:331-351 | A row of a model outside the registry that refers to the notification profile loses that reference when the profile is deleted, and no restore sets it again |
| Suspension.AnonymizeTouchesOnlyMine | src/modules/gdpr/gdpr-anonymization.service.ts:54-99 | In both modes no other identity's row changes, nullable references apart; without a suspension id nothing changes |
| Suspension.AnonymizeFinishes | src/modules/gdpr/gdpr-anonymization.service.ts:77-89 | Left alive, anonymize finishes if and only if it has its suspension id and no table with rows has a backup of that suspension already |
| Suspension.AnonymizeProcessesAll | src/modules/gdpr/gdpr-anonymization.service.ts:74-98 | A finished anonymize has deleted or anonymized every table it has a key for, and its total counts the rows the identity had |
| SuspensionColumns.AnonymizeKeepsField | src/modules/gdpr/strategies/gdpr-field-anonymization.strategy.ts:40-50 | No batch, in either mode and stopped anywhere, writes a field that no table of it is configured to replace, or removes a row that no table of it is to delete |
| SuspensionColumns.AnonymizedTableStays | src/modules/gdpr/strategies/gdpr-field-anonymization.strategy.ts:25-53 | A table that is anonymized keeps all its rows, and each field outside the configured ones exactly as it was, present or absent; only a channel can go, with its profile |
| SuspensionColumns.ConfiguredFieldsReplaced | src/modules/gdpr/strategies/gdpr-field-anonymization.strategy.ts:56-71 | And the configured fields of the rows found hold the replacement, by its kind: nothing, or text that tells the mode |
| SuspensionColumns.TurnKeepsField | src/modules/gdpr/gdpr-anonymization.service.ts:148-248 | The same of one turn, stopped anywhere |
| SuspensionColumns.AnonymizeReports | src/modules/gdpr/gdpr-anonymization.service.ts:74-98 | A batch that finishes reports each table, children first: the rows the identity had in it when it began, what was done to them and whether they were backed up |
| SuspensionColumns.RunStopsFor | src/modules/gdpr/gdpr-anonymization.service.ts:61-89 | A batch that has begun stops only because it dies, or upon a table with rows and a backup of its suspension already |
| Suspension.RunRecoverable | src/modules/gdpr/gdpr-anonymization.service.ts:77-89 | The loop invariant behind no loss: the tables so far are in unused backups or empty |
| Suspension.RunFinishes | src/modules/gdpr/gdpr-anonymization.service.ts:77-89 | The same condition for any prefix of the loop |
| Suspension.RunProcesses | src/modules/gdpr/gdpr-anonymization.service.ts:197-247 | Later tables never bring the data of a processed one back |
| Suspension.RunTotals | src/modules/gdpr/gdpr-anonymization.service.ts:87-88 | Summaries and totals of a finished loop |
| Suspension.TurnIsReady | src/modules/gdpr/gdpr-anonymization.service.ts:63-65 | All a turn touches of the identity is backed up when the turn comes, or of its own table |
| Suspension.ProcessRecoverable | src/modules/gdpr/gdpr-anonymization.service.ts:148-248 | One table, stopped anywhere |
| Suspension.ProcessOthersStay | src/modules/gdpr/gdpr-anonymization.service.ts:148-248 | One table touches nothing but the identity's rows, nullable references apart |
| Suspension.ProcessProcesses | src/modules/gdpr/gdpr-anonymization.service.ts:197-247 | A table's turn that ends has deleted or anonymized it |
| Suspension.ChildrenFirstSorts | src/modules/gdpr/gdpr-anonymization.service.ts:250-263 | A permutation in which no child table follows a parent table |
| Suspension.UnresolvedIsSnapshotted | src/modules/gdpr/strategies/gdpr-ownership-resolution.strategy.ts:42-48 | A key that does not resolve means the rows are backed up or were never there, also in a second call after the profile is gone |
| SuspensionStore.DeleteRecoverable | src/modules/gdpr/strategies/gdpr-deletion.strategy.ts:15-30 | A delete keeps the suspension recoverable if and only if all of the identity it removes, cascades to or unlinks is in an unused backup |
| SuspensionStore.DeleteIntact | prisma/schema.prisma:227-267 | Deleting a profile with its channels leaves no dangling reference |
| SuspensionStore.MatchesAreMine | src/modules/gdpr/strategies/gdpr-backup.strategy.ts:31-43 | Found by the resolved key means owned by the identity, both ways |
| SuspensionStore.DoomedAreMine | src/modules/gdpr/strategies/gdpr-deletion.strategy.ts:25-27 | A delete and its cascade reach only the identity's rows |
| SuspensionStore.DeleteOthersStay | src/modules/gdpr/strategies/gdpr-deletion.strategy.ts:15-30 | A delete leaves every other row |
| SuspensionStore.AnonymizeRecoverable | src/modules/gdpr/strategies/gdpr-field-anonymization.strategy.ts:25-53 | Overwriting fields of a backed-up table keeps the suspension recoverable |
| SuspensionStore.AnonymizeOthersStay | src/modules/gdpr/strategies/gdpr-field-anonymization.strategy.ts:47-50 | Overwriting fields changes no reference and no other identity's row |
| SuspensionStore.SaveRecoverable | src/modules/gdpr/strategies/gdpr-backup.strategy.ts:45-63 | What a load returned is the original table as long as no backup of it exists |
| SuspensionStore.Load | src/modules/gdpr/strategies/gdpr-backup.strategy.ts:38-42 | Exactly the rows whose user field equals the key |
| SuspensionStore.UpsertRecoverable | src/modules/gdpr/strategies/gdpr-restoration.strategy.ts:44-48 | Writing an original row back keeps the suspension recoverable |
| SuspensionStore.MarkUsedRecoverable | src/modules/gdpr/gdpr-anonymization.service.ts:136-142 | A backup may be marked used if and only if all its rows are back as they were |
| SuspensionStore.RestoredIsOriginal | src/modules/gdpr/gdpr-anonymization.service.ts:117-143 | With no backup left unused the identity's rows are the original ones |
| SuspensionStore.FreshSuspension | src/modules/gdpr/gdpr-anonymization.service.ts:104-109 | A suspension starts recoverable |
| SuspensionRestore.ParentsFirstSorts | src/modules/gdpr/gdpr-anonymization.service.ts:265-284 | A permutation in which no parent backup follows a child backup; unknown models count as parents |
| SuspensionRestore.ParentsAreBack | src/modules/gdpr/gdpr-anonymization.service.ts:111-112 | What parents first is good for: a channel's profile always comes first, so only nullable references among restored rows and failing upserts are left to ask about |
| SuspensionRestore.RowsRecoverable | src/modules/gdpr/strategies/gdpr-restoration.strategy.ts:29-55 | Stopped at any row, whatever upserts fail |
| SuspensionRestore.RunRestores | src/modules/gdpr/gdpr-anonymization.service.ts:117-143 | The restore loop: how many backups are used up and how many rows of the next are taken up when its statements are spent, each row accounted for and the other backups still whole |
| SuspensionService.Database.CreateBackup | src/modules/gdpr/strategies/gdpr-backup.strategy.ts:45-63 | Fails on a second backup of a table under one suspension (prisma/schema.prisma declares the pair unique) |
| SuspensionService.Database.DeleteMany | src/modules/gdpr/strategies/gdpr-deletion.strategy.ts:25-29 | The delete with its cascade, and the count of matching rows |
| SuspensionService.Database.UpdateMany | src/modules/gdpr/strategies/gdpr-field-anonymization.strategy.ts:47-52 | The update, and the count of matching rows |
| SuspensionService.Database.Upsert | src/modules/gdpr/strategies/gdpr-restoration.strategy.ts:44-48 | Fails on a missing reference and changes nothing then; one that is executed but not answered fails for its caller all the same |
| SuspensionService.Database.MarkBackupUsed | src/modules/gdpr/gdpr-anonymization.service.ts:136-142 | Marks the one backup |
| SuspensionService.AnonymizationService.Anonymize | src/modules/gdpr/gdpr-anonymization.service.ts:54-99 | The imperative anonymize is the specified batch, with keys resolved before the first change |
| SuspensionService.AnonymizationService.ProcessTables | src/modules/gdpr/gdpr-anonymization.service.ts:74-89 | The loop with its summary and running total |
| SuspensionService.AnonymizationService.ProcessTable | src/modules/gdpr/gdpr-anonymization.service.ts:148-248 | Every branch: no key, no model, no rows, backup failure, delete, no PII fields, anonymize |
| SuspensionService.AnonymizationService.SortTablesChildrenFirst | src/modules/gdpr/gdpr-anonymization.service.ts:250-263 | The two-list loop computes the sorted order |
| SuspensionService.AnonymizationService.SortBackupsParentsFirst | src/modules/gdpr/gdpr-anonymization.service.ts:265-284 | The two-list loop computes the sorted order |
| SuspensionService.AnonymizationService.ResolveOwnershipKey | src/modules/gdpr/strategies/gdpr-ownership-resolution.strategy.ts:37-52 | The identity itself, or the id of its profile |
| SuspensionService.AnonymizationService.ResolveAllOwnershipKeys | src/modules/gdpr/strategies/gdpr-ownership-resolution.strategy.ts:20-35 | Each user field of the batch resolved once; empty keys left out |
| SuspensionService.AnonymizationService.FindUnusedBackups | src/modules/gdpr/gdpr-anonymization.service.ts:104-109 | Each unused backup of the suspension once, in any order |
| SuspensionService.AnonymizationService.RestoreFromBackups | src/modules/gdpr/gdpr-anonymization.service.ts:101-146 | The imperative restore is the specified one |
| SuspensionService.AnonymizationService.RestoreBackup | src/modules/gdpr/gdpr-anonymization.service.ts:117-143 | One backup: invalid data skipped and left unused, unknown model used without rows |
| SuspensionService.AnonymizationService.RestoreRows | src/modules/gdpr/strategies/gdpr-restoration.strategy.ts:27-57 | The upsert loop with its swallowed failures; rows are counted whose upsert was answered |
| ExportSafety.CompletedExportIsAvailable | src/modules/gdpr/gdpr-export-pipeline.service.ts:400-420 | In every reachable state a COMPLETED export not past its expiry names a stored file that is present, if and only if its own worker did not delete it, which takes a lost reply to the completing update |
| ExportSafety.LostReplyLosesFile | src/modules/gdpr/gdpr-export-pipeline.service.ts:230-242 | That exception is real: the update commits, its reply is lost, and the cleanup deletes the file of a COMPLETED request |
| ExportSafety.RunSafe | src/modules/gdpr/gdpr-export-pipeline.service.ts:192-249 | Keys fresh, owners apart, and what each party relies on between its steps, in every run |
| ExportSafety.StepSafe | src/modules/gdpr/gdpr-export-pipeline.service.ts:192-249 | Every step of every party keeps it |
| ExportSafety.OneWinnerEach | src/modules/gdpr/gdpr-export-pipeline.service.ts:401-420 | However many workers reclaim a request at most one completion takes effect and dataPayload names that worker's file; exactly one party expires it |
| ExportSafety.RunWinners | src/modules/gdpr/gdpr-export-cleanup.service.ts:232-239 | The accounts of completions and expiries behind it |
| ExportSafety.DownloadsFindTheirFile | src/modules/gdpr/gdpr-s3-storage.adapter.ts:332-341 | In every run each granted download was of the file its request names, while that file was there |
| ExportLeftovers.ExpiredFileIsThere | src/modules/gdpr/gdpr-export-cleanup.service.ts:216-239 | In every run the file of an EXPIRED export is there if and only if no deletion of it was executed; then its winner is still about to delete it, or its deletion failed, or the reply to the winning mark was lost, or the winner stopped |
| ExportLeftovers.ExpiredFileIsGone | src/modules/gdpr/gdpr-export-delivery.service.ts:373-432 | Once nobody is on the way to the file, and none of that happened to it, it is gone |
| ExportLeftovers.ExpiredFileStaysIff | src/modules/gdpr/gdpr-export-cleanup.service.ts:216-239 | Once nobody is on the way, every continuation keeps the file if and only if no deletion of it was executed so far |
| ExportSafety.ExpiredFileStays | src/modules/gdpr/gdpr-export-cleanup.service.ts:224-229 | A failed deletion is not tried again: such a file stays in every continuation |
| ExportSafety.FailedDeletionLeavesFile | src/modules/gdpr/gdpr-export-cleanup.service.ts:216-239 | It is reached: the cleanup job marks EXPIRED although its deletion failed |
| ExportLifecycle.StatusOnlyClimbs | src/modules/gdpr/gdpr.repository.ts:86-124 | In every run status only climbs PENDING, PROCESSING, COMPLETED or FAILED, EXPIRED, and file and expiry never change once set |
| ExportLifecycle.StepOnward | src/modules/gdpr/gdpr.repository.ts:253-343 | Every guarded statement climbs |
| ExportLifecycle.RunOnward | src/modules/gdpr/gdpr.repository.ts:253-343 | So does every continuation of a run |
| ExportPromises.CompletedUntilExpiry | src/modules/gdpr/gdpr-export-pipeline.service.ts:384-413 | An export completed with an expiry names its worker's file, is shown as completed as long as that expiry is not past and as expired from then on, in every continuation |
| ExportPromises.ClaimedIff | src/modules/gdpr/gdpr.repository.ts:86-115 | With room in the batch a request is claimed if and only if it is pending, or processing and not updated for longer than the stale time |
| ExportPromises.ServedInOrder | src/modules/gdpr/gdpr.repository.ts:98-115 | In a full batch a pending request comes before one processing, and of two alike the older one |
| ExportPromises.AbandonedIsServed | src/modules/gdpr/gdpr.repository.ts:86-136 | Nobody waits for ever: from every reachable state a request that is pending, or processing by a worker that does nothing more, is completed by a new worker once the claim is stale |
| ExportPromises.LoneWorkerCompletes | src/modules/gdpr/gdpr-request-processor.service.ts:199-294 | A worker alone with its request, and with nothing going wrong, completes it with its own file and the expiry it was given |
| ExportPromises.FoundIff | src/modules/gdpr/gdpr-export-cleanup.service.ts:140-158 | With room in the batch the cleanup job finds exactly the completed exports past their expiry |
| ExportPromises.LongestExpiredFirst | src/modules/gdpr/gdpr-export-cleanup.service.ts:140-158 | In a full batch the longest expired come first, and nothing found expired later than anything left |
| ExportPromises.AttemptIsRecorded | src/modules/gdpr/gdpr-export-delivery.service.ts:226-301 | A download attempt on a completed export records its link if and only if it could be signed and the file is still there, and changes nothing else of the export |
| ExportPromises.OverdueAttemptExpires | src/modules/gdpr/gdpr-export-delivery.service.ts:373-432 | A download attempt on an overdue export leaves it EXPIRED if its mark was executed, and its file gone if that mark was the first, was answered and the deletion executed, whoever else is at it |
| ExportProcessor.ProcessedIsSettled | src/modules/gdpr/gdpr-request-processor.service.ts:199-294 | Whatever others do, a request is neither pending nor processing once its worker is through, if its completion or one of the two failure marks was executed |
| ExportProcessor.LeftProcessingIff | src/modules/gdpr/gdpr-request-processor.service.ts:240-290 | A worker alone with its request leaves it PROCESSING if and only if none of the statements that would end it is executed |
| ExportProcessor.RequestProcessor.ProcessPendingExports | src/modules/gdpr/gdpr-request-processor.service.ts:112-175 | Claims a batch with the default stale time and works it off one by one: counters add up, nothing is skipped, and each request that could be ended is ended |
| ExportProcessor.RequestProcessor.ProcessRequest | src/modules/gdpr/gdpr-request-processor.service.ts:199-294 | The steps of one request in every failure case; it counts as processed if and only if neither data, pipeline nor file record failed |
| ExportProcessor.RequestProcessor.WorkOff | src/modules/gdpr/gdpr-request-processor.service.ts:142-162 | One failing request does not stop the next |
| ExportService.Repository.ClaimPending | src/modules/gdpr/gdpr.repository.ts:86-136 | Claims up to the limit with the bounded stale time, fresh before stale and oldest first with none passed over, returns them oldest first, and none can be claimed again until stale |
| ExportService.Repository.SelectCandidates | src/modules/gdpr/gdpr.repository.ts:98-115 | The candidates chosen |
| ExportService.Repository.InCreationOrder | src/modules/gdpr/gdpr.repository.ts:132-135 | The read back, oldest first |
| ExportService.BoundedStaleMs | src/modules/gdpr/gdpr.repository.ts:24-36 | The stale time is five minutes unless asked otherwise, and never outside one minute to an hour |
| ExportService.ExportPipeline.Execute | src/modules/gdpr/gdpr-export-pipeline.service.ts:178-250 | The steps added to the run for every stage that fails, with others in between; success exactly if no stage failed, even when the completion came too late; a failed completion leaves no file behind if the deletion is executed |
| ExportService.ExportPipeline.StoreStage | src/modules/gdpr/gdpr-export-pipeline.service.ts:328-366 | The file is there under a key nobody has used |
| ExportService.ExportPipeline.CompleteStage | src/modules/gdpr/gdpr-export-pipeline.service.ts:375-435 | An update that matches no row is no error, one that fails leads to cleanup |
| ExportService.ExportPipeline.Fail | src/modules/gdpr/gdpr-export-pipeline.service.ts:236-242 | The own file is deleted if possible and the request marked failed if still processing |
| ExportService.ExportPipeline.Abort | src/modules/gdpr/gdpr-export-pipeline.service.ts:230-248 | A failure before the file is known deletes nothing |
| ExportService.CleanupService.CleanupExpiredExports | src/modules/gdpr/gdpr-export-cleanup.service.ts:134-202 | Every export the job found and whose mark was executed is EXPIRED at its end, and its file gone if the deletion was executed, whatever others did; an unanswered mark counts as failed all the same, counts add up and one failure stops no other |
| ExportService.CleanupService.FindExpiredExports | src/modules/gdpr/gdpr-export-cleanup.service.ts:140-158 | Overdue COMPLETED exports up to the batch size, longest expired first, none passed over |
| ExportService.CleanupService.CleanupSingleExport | src/modules/gdpr/gdpr-export-cleanup.service.ts:207-239 | Delete, carry on if that fails, then mark |
| ExportService.AllSweepsExpire | src/modules/gdpr/gdpr-export-cleanup.service.ts:178-189 | The theorem behind the job, for any interleaving and also for marks whose reply is lost: expired if the mark was executed, and the file gone if the deletion was |
| ExportService.StatusAgreesWithDownload | src/modules/gdpr/gdpr-s3-storage.adapter.ts:332-341 | In every reachable state an uninterrupted download attempt is granted if and only if the export is shown as COMPLETED and its own worker has not deleted the file; so it is shown as COMPLETED without being downloadable exactly if that worker has |
| ExportService.ShownWithoutFile | src/modules/gdpr/gdpr-export-delivery.service.ts:350-361 | That state is reached: the page offers a download, and the attempt is refused for want of the file |
| ExportService.OverdueIsShownExpired | src/modules/gdpr/gdpr-export-delivery.service.ts:350-353 | Shown as expired exactly when marked so or COMPLETED past its expiry |
| ExportService.DeliveryService.GetExportStatus | src/modules/gdpr/gdpr-export-delivery.service.ts:316-364 | The status shown, or which error is thrown |
| ExportService.DeliveryService.AuthorizeDownload | src/modules/gdpr/gdpr-export-delivery.service.ts:149-307 | Each answer with its exact condition, and exactly the steps it adds to the run, with others between the look and the signing; a link only if the file is still there, which it is exactly if nobody has deleted it: before the expiry only its own worker can have |
| ExportService.DeliveryService.Deliver | src/modules/gdpr/gdpr-export-delivery.service.ts:226-301 | From the look at the status on |
| ExportService.DeliveryService.SignLink | src/modules/gdpr/gdpr-export-delivery.service.ts:436-445 | The signing, after what others did since the look: it throws if the file is gone |
| ExportService.DeliveryService.HandleExpiredExport | src/modules/gdpr/gdpr-export-delivery.service.ts:373-432 | Mark first; only the party whose mark took effect deletes the file |
| ExportService.RunKeepsParty | src/modules/gdpr/gdpr-export-pipeline.service.ts:178-250 | Between its own steps a party stays where it was |
| HtmlEscape.DecodeEscape | src/modules/gdpr/gdpr-html-renderer.service.ts:635-645 | Decoding character references (HTML Living Standard, section 13.1.4) undoes escaping for every text, also one that holds references already, and for every decoder that knows the four names |
| HtmlEscape.DecodeReference | src/modules/gdpr/gdpr-html-renderer.service.ts:636-642 | A reference is decoded as a unit whatever follows it |
| HtmlEscape.DecodeEscapedChar | src/modules/gdpr/gdpr-html-renderer.service.ts:636-644 | Each of the five replacements decodes to its character |
| HtmlEscape.EscapeLeavesNoDelimiter | src/modules/gdpr/gdpr-html-renderer.service.ts:635-645 | Of the five special characters the output holds only ampersands |
| HtmlEscape.EscapeInjective | src/modules/gdpr/gdpr-html-renderer.service.ts:635-645 | Two texts with one rendering are one text |
| HtmlEscape.FixedIffPlain | src/modules/gdpr/gdpr-html-renderer.service.ts:644 | Escaping changes a text if and only if it holds a special character |
| HtmlEscape.EscapeTwice | src/modules/gdpr/gdpr-html-renderer.service.ts:644 | Escaping twice differs from escaping once exactly for such texts |

## Left out

- RateLimitBound.SystemBound: counts an admitted request at the moment its counter granted it, not when the answer reached the client, because a reply may take any time.
- RateLimitSystem.ProbesInEveryRun: speaks of each process by itself, because processes share no probe state in the source either.
- SuspensionService.LifeStaysRecoverable: asks of a suspend call and of a first restore the condition under which it loses nothing if it ends, also of calls that die before the turn that would lose a row; `AttemptsGiveBackIff` says exactly what becomes of restores without it.
- SuspensionRetry.RestoreResumes: takes it that the rows of a backup are listed in the same order again, because they are stored as one array.
- ExportService.DeliveryService.AuthorizeDownload: treats its read of the request and of the clock as one moment: an export not overdue at the later clock reading cannot have expired in between, and the mark on one that did has no effect.
- HtmlEscape.DecodeEscape: decodes decimal references and named references that end in a semicolon; hexadecimal and unterminated legacy references are not produced by the escaper, nor are the decimal references to 0 and to 128-159, which the Standard remaps and this decoder does not.
- RedisRateLimiter.WindowFromExpire: says nothing of the very millisecond of the expiry, because Redis decides it.
- Rate limiting: Redis evicting keys, rounding of its expiry times, transport, namespacing of keys and the lookup of a client's identity or address.
- Rate limiting: the double backend failure, because the in-memory limiter never throws.
- Rate limiting: a process that restarts, which begins again with an empty memory.
- Scheduler: uptime-based mode, the cron library, time zones and logging of durations; an expression is valid or not by assumption.
- Scheduler: the length of jobs, which may be any; the theorems say what holds of those within their TTL.
- Suspension: the text of anonymized random values, the anonymized uid, serialisation of backup data to JSON and back, and schema versions of backups.
- Suspension: more than one nullable reference per row; a cascade reaches the channels of a profile and no further, as in the schema.
- Suspension: rows without an id, which the restore skips; every row of the model has its primary key.
- Suspension: legal holds, escalation of suspensions to deletion, grace periods and the e-mails around them.
- Exports: cancelling a request, and moving a failed request back to pending, which has no caller.
- Exports: rows that another claim holds locked at the moment of a claim, which are skipped until the next one.
- Exports: files that a worker leaves behind when its completion came too late or its store call failed after storing, and expiry rules of the storage itself.
- Exports: how many days an export lasts; its expiry is a parameter of the completion, and the clock is read to the millisecond.
- Exports: audit entries, notifications, download counters and the contents of the export; the record of the export file counts as done or failed.
- Dependency injection, configuration schemas, translations, command-line tools and HTTP plumbing.
