# Verification of the adele-queue job protocol

This project models the job queue of `Cidekar/adele-queue` in Dafny and proves what its two
backends guarantee. The main subject is the redis backend: a lease protocol in which each job
is a hash that moves between `pending`, `locked`, `completed` and `failed` keys, moved by many
workers that each hold a private copy of a job while its handler runs, and by a reaper that
takes back expired locks. Workers may crash or outlive their lock. The second subject is the
memory backend: an unbuffered channel, workers, detached re-enqueue goroutines, an atomic
counter and a bounded failure cache.

## How the model is laid out

| file | contents |
|---|---|
| `Jobs.dfy` | job records, the clock (nanoseconds, truncated to whole seconds when formatted), job-level decisions |
| `Protocol.dfy` | the redis protocol seen by one job: its hashes, live copies and history; events; runs |
| `LeaseSafety.dfy`, `Accounting.dfy` | runs without overruns: exclusion, key shape, finality, attempt counts, backoff |
| `Termination.dfy`, `Liveness.dfy` | all runs: potential, exact worst case, every job can end |
| `Records.dfy` | all runs: every record carries the dispatched job; the fields each worker and reaper step writes |
| `Timing.dfy` | all runs: schedule gate, lock lifetimes, dead initial backoff, unparseable schedules |
| `Store.dfy`, `ReaperSpec.dfy`, `RedisQueue.dfy` | the keyspace, what a tick and a depth query mean, and the queue object issuing redis commands |
| `System.dfy`, `Deployment.dfy` | the whole deployment, in which every job is one protocol cell; the queue object driven through any such run |
| `Commands.dfy` | single redis commands interleaved freely: no job is lost, and exactly which races lose one |
| `Keys.dfy` | key strings, channel normalisation and choice |
| `Sums.dfy`, `Memory.dfy`, `MemoryRuns.dfy`, `MemoryTiming.dfy`, `MemoryQueue.dfy` | the memory backend as a token machine, its results over runs and against the clock, and the object its goroutines call |
| `Equivalence.dfy` | the two backends agree on executions and verdicts |
| `Registry.dfy`, `Configuration.dfy` | the handler registry; configuration defaults and the recovery window they imply |

A run is any finite sequence of events; an event that cannot happen changes nothing, so a
statement about all event sequences is a statement about every run. The classes
(`RedisQueue.Queue`, `MemoryQueue.Queue`, `Store.Redis`, `Registry.HandlerRegistry`,
`Configuration.Config`) follow the source statement by statement and are proved to have the
effect the pure step functions give; the results are then proved of those functions over runs.
`Deployment.Drive` and `Deployment.Sweep` carry them back: any sequence of calls on the redis
queue object ends where the run ends.

Assumptions, stated once: one clock; the same settings in every process; redis and database
calls succeed; ids are fresh; counters do not overflow; the default channel has no colon (with one,
the worker's split at `api/redis.go:75-85` names another key, as `KeyRoundTrip` says, and the job is
never claimed, so `EveryJobCanEnd` and `EveryScriptFinishes` would fail). `AttemptAccounting`,
`FailedJobTotals`, `CumulativeBackoff`, `LedgerStep` and `BackendsAgree` are about jobs whose
`DispatchAt` is empty or parseable; `MalformedScheduleRuns` covers the others. Except in `Commands.dfy`, the commands
of one claim, one settlement or one reap act as one step, although the source wraps no
transaction around them; the gap between a claim and its settlement, with the worker's stale
copy held across it, is always open. An *execution* is a claim that passes its gate.

## Where the code and its documentation part

- `api/types.go:41` says `MaxAttempts` counts all handler executions. The worker path runs a
  failing job `MaxAttempts + 1` times (`EveryScriptFinishes`, `FailedJobTotals`), as
  `api/queue_pressure_test.go:76-111` also expects.
- `api/redis.go:246-250` describes an initial 5-second backoff. It is never taken; the first
  retry has no delay (`InitialBackoffIsDead`).
- The comment at `api/reaper.go:243-248` says `RetryAfter` is cleared; line 249 sets it. The model sets it.
- `api/queue.go:475` says an unparseable `DispatchAt` is an error. On redis it is stored, and such a
  job still runs if and only if one expired lock leaves it a retry (`MalformedScheduleRuns`).
- `api/queue.go:521-530` compares a normalised request with the configured names as written, so a channel
  configured with a capital, space, comma or colon receives jobs only as the default (`RequestIsHonoured`).
- `api/queue.go:557-558` promises the number of pending jobs. A channel configured twice is counted
  twice; `DepthCountsPendingKeys` gives the exact condition.
- The reaper's EXISTS and DEL (`api/reaper.go:173-183`) are two commands. A claim between them
  leaves the job without any key (`ClaimInWindowLosesJob`). `JobIsLostExactly` says which runs of
  single commands lose a job: those in which a claim takes the pending key between a reaper's EXISTS
  and DEL and nothing writes a pending key or moves the lock before the DEL.
- `api/types.go:84-85` says the counter is incremented on a successful send; the code increments before
  the send, and the model follows the code.

## Model

| member | source | states |
|---|---|---|
| `LeaseSafety.MutualExclusion` | api/redis.go:85-118 | in every run where each live worker settles or crashes within n-1 seconds of its claim, n being the dispatched LockFor or, if that is not positive, LockTimeout, no two live workers hold the job and the reaper changes nothing about a held job |
| `LeaseSafety.LeaseStep` | api/reaper.go:149-190 | the lease invariant (key shape, live copy equal to the locked hash, at most one live copy, row count) survives every event |
| `LeaseSafety.KeyShape` | api/redis.go:223-308 | in such runs a dispatched job has exactly one of the key sets pending, locked, pending with leaked lock, completed, failed, and exactly one failed_jobs row when it is in failed and a database is set, else none |
| `LeaseSafety.Finality` | api/redis.go:223-308 | once a run without overruns has brought a job to completed or failed, no further events, overruns included, change a hash, start an execution, add a live copy or a database row |
| `LeaseSafety.LeaseBoundIsTight` | api/reaper.go:149-166 | for every timeout and attempt limit that lets the reaper requeue, one nanosecond past the lease leads to two live workers and then, by one success and handler errors alone, to a job both completed and failed |
| `Accounting.AttemptAccounting` | api/redis.go:245-256 | without overruns, executions equal counter - c0 while pending and counter - c0 + 1 while locked alone, never exceed 1 + max(0, M - c0), and a failed job's exception fixes its count |
| `Accounting.FailedJobTotals` | api/reaper.go:239-242 | a job failed by handler errors alone ran 1 + max(0, M - c0) times, one whose every worker crashed ran max(1, M - c0) times, without Retry once |
| `Accounting.CumulativeBackoff` | api/redis.go:248-256 | the k-th execution carries counter c0 + k and starts at least 5(c0 + ... + (c0+k-1)) whole seconds after the first, and n + 5 seconds more for every crash before it, n being the lock time |
| `Accounting.RetrySpacing` | api/reaper.go:239-249 | an execution with counter k is followed by the next no sooner than 5k seconds after it began if its worker settled it, and n + 5(k+1) seconds if its worker crashed |
| `Accounting.LedgerStep` | api/reaper.go:238-267 | the ledger of counters, start times and outcomes survives every event |
| `Termination.PotentialDrops` | api/redis.go:244-271 | a potential over pending key, locked key and live copies drops on every step but ticks, blocked claims and idle reaps, in all runs |
| `Termination.RunsAreBounded` | api/reaper.go:168-190 | any run, with overruns and crashes, makes boundedly many moves and executions for a job |
| `Termination.ExecutionsAreBounded` | api/reaper.go:238-267 | a job executes at most 3*2^(n-1) - 1 times (once when n is 0), n = M - c0, hence fewer than 2^(n+1) |
| `Termination.BoundIsAttained` | api/redis.go:244-271 | for every retrying job some run executes it exactly that often |
| `Liveness.EveryJobCanEnd` | api/redis.go:196-308 | after any run a dispatched job can be driven to completed or failed with no pending key, lock or live copy left |
| `Liveness.SomeMoveIsPossible` | api/reaper.go:140-200 | until then some worker or reaper step is possible, at once or after waiting |
| `Timing.ScheduleGate` | api/redis.go:103-117 | in every run no execution starts at or before a parseable DispatchAt |
| `Timing.DispatchInDelays` | api/queue.go:550-555 | on redis a job given to DispatchIn is stored with its gate at exactly the truncated now + delay, never starts before, and is otherwise the job given |
| `Timing.OrphanWindow` | api/reaper.go:58-73 | with a reaper visit every ReaperInterval, a lock taken at t is gone or replaced before t + n + ReaperInterval, n being the dispatched LockFor or else LockTimeout |
| `Timing.LockLastsExactly` | api/reaper.go:149-163 | in every run, overruns included, the reaper acts on a lock taken at t if and only if the truncated t is n seconds past, for that n |
| `Timing.InitialBackoffIsDead` | api/redis.go:246-254 | in every reachable state an error that is retried sets the gate to exactly 5 * counter seconds from the truncated now, so the initial 5-second branch never applies and a first retry from counter 0 is immediate |
| `Timing.MalformedScheduleRuns` | api/queue.go:480-484 | a redis job with an unparseable DispatchAt can execute if and only if one expired lock leaves it a retry |
| `Records.RecordsKeepTheJob` | api/redis.go:213-261 | in every run, overruns included, every hash and live copy carries the id, name, payload, queue, retryInSeconds, lockFor, dispatchAt and reservedAt of the request, every hash the status of its keyspace, and every execution is given the requested name and payload |
| `Records.DispatchWrites` | api/queue.go:476-486 | the stored form of a request: reservation, gate and status filled in, all else kept |
| `Records.WorkerWrites` | api/redis.go:222-306 | in every reachable state, field by field, what a settling worker writes for success, error, panic and missing handler, and when it adds a row |
| `Records.ReaperWrites` | api/reaper.go:149-299 | field by field, what the reaper makes of any lock: left alone for LockFor or LockTimeout seconds from LockedAt, or ReservedAt failing that, then deleted, requeued behind 5(k+1) seconds, or failed with a row |
| `Store.PutIs` | api/redis.go:13-22 | a keyspace that agrees with another outside one job is that keyspace with the job's four hashes replaced |
| `RedisQueue.Queue.ClaimPending` | api/redis.go:85-118 | the claim's commands have exactly the effect and report of a claim step: started with a stamped copy, put back behind the gate, stuck on an unparseable gate, or missing; a hash whose own ID is not its key's sends the Status write to another lock |
| `RedisQueue.Queue.MoveLocked` | api/redis.go:228-234 | HSET then RENAME moves the rewritten locked hash to its next keyspace whether or not the lock still exists |
| `RedisQueue.Queue.SettleJob` | api/redis.go:194-308 | success, retry and permanent failure change the four hashes and the failed_jobs rows as the settle step says, from the worker's private copy; `WorkerWrites` spells the fields out |
| `RedisQueue.Queue.Dispatch` | api/queue.go:476-531 | the job is written as `DispatchWrites` says under the channel `RequestIsHonoured` names, and nothing else changes |
| `RedisQueue.Queue.RequeueExpiredLock` | api/reaper.go:238-299 | an expired lock counts one attempt and goes back to pending with its backoff, or to failed with a row, as `ReaperWrites` spells out |
| `RedisQueue.Queue.ReapItem` | api/reaper.go:129-200 | one listed key is skipped, left as recent, deleted as duplicate, requeued or failed, exactly as the reap step says |
| `RedisQueue.Queue.RunReaperTick` | api/reaper.go:77-223 | on any keyspace a tick over any pages reaps exactly the listed jobs, each as if alone; requeued, failed and dupes count jobs, scanned and recent count visits, recent exactly those to a lock dated and unexpired when the tick began; rows follow, and each cumulative counter grows by the tick's own |
| `ReaperSpec.CoveringTick` | api/reaper.go:91-207 | when the listing covers all locked keys, in any order and with repeats, the result is the pointwise reaped keyspace and requeued + failed + dupes is the number of expired locks |
| `ReaperSpec.Visit` | api/reaper.go:129-201 | a first or repeated visit keeps a tick on course |
| `RedisQueue.Queue.Depth` | api/queue.go:596-626 | with exact scans the loops return the sum of pending keys per configured channel |
| `ReaperSpec.DepthIsExact` | api/queue.go:596-626 | those sums equal the number of pending keys if and only if no channel listed twice holds one |
| `System.JobsAreCells` | api/redis.go:69-119 | seen from any job, a run of the whole deployment is a run of its cell, and no overrun anywhere means no overrun there |
| `System.TickIsReaps` | api/reaper.go:91-207 | a reaper tick over any pages is a run of the deployment: one reap per listed entry, with the same keyspace and number of rows |
| `System.HashesKeepTheirIds` | api/redis.go:178-181 | in every deployment each hash carries the id of its key, so the worker's Status write, addressed by the hash's own ID, reaches only the claimed job |
| `System.SentJobsAreKept` | api/queue.go:521-531 | whatever a deployment does before and after, a job sent to it is found under the channel that honours its request and under no other, and its hashes and every worker's copy carry what was sent |
| `System.SendLands` | api/queue.go:521-531 | a Send adds the job's key to the pending keys of that channel and leaves every other channel as it was |
| `Deployment.Drive` | api/redis.go:69-119 | any sequence of dispatches, claims, settlements, crashes and reaps executed by the queue object's methods leaves the keyspace, live copies, clock and failed_jobs count of the run, and no two workers on one job when no worker overruns |
| `Deployment.Sweep` | api/reaper.go:77-223 | a whole tick of the queue object keeps that correspondence |
| `System.NoTwoWorkersOneJob` | api/redis.go:85-118 | in every deployment without overruns, for any number of jobs, workers, reapers and crashes, no two workers hold one job and no reaper changes a held job |
| `System.EveryJobHasAShape` | api/redis.go:223-308 | in such deployments every job has one of the five key sets |
| `System.EveryJobIsBounded` | api/reaper.go:168-190 | in every deployment each job's executions are bounded |
| `System.DepthCountsPendingKeys` | api/queue.go:141-143 | in every reachable deployment the per-channel sums count the pending keys, if and only if no channel listed twice holds one, because every key lies in a configured channel |
| `Commands.ScriptsImplementSteps` | api/reaper.go:252-281 | run without interruption, the commands of a step do what the step does, and they are of the issued kinds only |
| `Commands.NoJobIsLost` | api/reaper.go:173-183 | under every interleaving of single commands, EXISTS and DEL together, a job with a key keeps one |
| `Commands.JobIsLostExactly` | api/reaper.go:173-183 | with EXISTS and DEL apart, a run of issued commands loses a job if and only if a claim's RENAME takes the pending key of a job with no completed or failed key between a reaper's EXISTS and DEL, and no HSET of pending or RENAME out of locked comes between that claim and the DEL |
| `Commands.ClaimInWindowLosesJob` | api/redis.go:85-93 | one claim in that window leaves any waiting job without a key, and the claim's next HSET recreates a lock with none of its data |
| `Commands.WindowIsReachable` | api/redis.go:256-261 | every waiting job with a retry left can reach a state in which the reaper and a worker may both take it |
| `Keys.NormaliseIsCanonical` | api/redis.go:312-315 | the normaliser's output has no colon, comma, space or upper-case letter |
| `Keys.NormaliseFixedPoints` | api/redis.go:312-315 | its fixed points are exactly the canonical names, so it is idempotent |
| `Keys.NormaliseByCharacter` | api/redis.go:313-314 | it works character by character: colon and comma vanish, a space becomes a dash, a capital its own small letter, the rest stays |
| `Keys.SelectedIsConfigured` | api/queue.go:521-530 | the channel Dispatch selects is always configured, and colon-free when the default is |
| `Keys.RequestIsHonoured` | api/queue.go:521-530 | the selected channel is the listed canonical channel the request resembles, and the default if and only if the request is empty or resembles none |
| `Keys.NormaliseResembles` | api/redis.go:312-315 | a request normalises to a canonical name if and only if it differs from it only by colons and commas put in, spaces for dashes, and case |
| `Keys.KeyFormats` | api/redis.go:14-17 | the four key strings, written out |
| `Keys.KeyRoundTrip` | api/redis.go:75-78 | splitting a formatted key recovers the id, and the queue if and only if the queue has no colon |
| `Keys.DispatchedKeyRoundTrip` | api/queue.go:521-531 | every key Dispatch writes parses back to its channel and id |
| `Keys.FormatInjective` | api/redis.go:14-17 | different jobs and states have different key strings |
| `Keys.MatchesItsChannel` | api/queue.go:598-601 | Depth's pattern for a channel matches exactly that channel's pending keys |
| `Memory.Conservation` | api/queue.go:317-335 | in every interleaving a dispatched id has exactly one token, asleep, sending, with a worker, completed, failed or dropped, and other ids none |
| `Memory.DepthIsExact` | api/queue.go:579-582 | in every interleaving pendingCount is the blocked senders plus the workers yet to decrement, never negative |
| `MemoryRuns.MemoryVerdicts` | api/memory.go:46-96 | counting recorded handler invocations, failed jobs were invoked exactly 1 + max(0, M - c0) times and failed each time, completed ones failed, then succeeded within that budget |
| `MemoryRuns.MemoryScheduleGate` | api/queue.go:492-511 | in every interleaving no invocation begins before a parseable DispatchAt |
| `MemoryRuns.MemoryDispatchInDelays` | api/queue.go:550-555 | in memory a job given to DispatchIn is never invoked before the truncated now + delay |
| `MemoryTiming.MemoryKeepsTheJob` | api/queue.go:476-515 | in every interleaving each token of a job and each invocation of its handler carries exactly what was requested, but for the id, the default channel, the dispatch's stamps and the counter |
| `MemoryTiming.MemoryBackoff` | api/memory.go:46-71 | in every interleaving an invocation with counter k is followed by one with counter k + 1 no sooner than R*k seconds later, R when that is 0, k when R is 0 |
| `MemoryTiming.RetryTimer` | api/memory.go:46-71 | a failing invocation leaves a timer that wakes exactly that much later, or a failed job |
| `MemoryTiming.ScheduleTimer` | api/queue.go:492-514 | a job scheduled for later sleeps until exactly then, any other is on offer at once |
| `MemoryRuns.HandledJobsEnd` | api/queue.go:322-328 | a job whose handler exists when it is dispatched, inline or registered, is never dropped and, once nothing moves, has ended exactly once |
| `MemoryRuns.InvocationsAreBounded` | api/memory.go:60-73 | all invocations together are at most the sum of the jobs' budgets, and all moves at most four times that |
| `MemoryRuns.SomeMoveIsPossible` | api/queue.go:317-335 | with one worker or more the machine is never stuck before every job has ended |
| `MemoryRuns.QuietMeansEnded` | api/queue.go:329-333 | when nothing can move, Depth is zero and every dispatched job has ended exactly once |
| `MemoryRuns.HandlerIsNeverNil` | api/queue.go:383-396 | however registrations interleave with admission and lookup, a worker about to call a handler has one |
| `MemoryRuns.FailureCache` | api/memory.go:38-44 | after n failing invocations the cache is exactly the last ((n-1) mod H) + 1 failed ids in order |
| `MemoryTiming.TotalSleep` | api/memory.go:49-60 | a job from counter 0 that never succeeds is invoked M + 1 times, with at least R + R*M*(M-1)/2 seconds on the clock from the first invocation to the last, M*(M-1)/2 when R is 0 |
| `Equivalence.SleepIsExact` | api/memory.go:49-71 | for every such job some run takes exactly that long, and no time when R is negative |
| `MemoryQueue.Queue.Dispatch` | api/queue.go:476-515 | rejects an unparseable DispatchAt, parks a future job on a timer, otherwise counts the job and offers it, as one machine step |
| `MemoryQueue.Queue.AddFailedJob` | api/memory.go:34-96 | caches the id and retries after the backoff or gives up, as the machine does |
| `MemoryQueue.Queue.RunHandler` | api/queue.go:369-404 | a worker's run ends in completed, failed, a retry timer or dropped, as the machine does |
| `MemoryQueue.Queue.ReceiveJob` | api/queue.go:321-328 | receiving takes one blocked sender and records an invocation when a handler is found |
| `MemoryQueue.Queue.WakeSender` | api/memory.go:67-71 | a waking goroutine counts its job, then offers it |
| `MemoryQueue.Queue.DecrementPending` | api/queue.go:329-333 | the decrement frees the worker |
| `Equivalence.BackendsAgree` | api/memory.go:46-73 | for every job and every script of outcomes, any finished redis run without crash or overrun and any memory run in which the job ended have the same outcomes, as many executions as recorded invocations, and the same verdict |
| `Equivalence.EveryScriptFinishes` | api/redis.go:194-291 | every job and script have such a redis run; under a handler that always fails a retrying job from counter 0 runs M + 1 times |
| `Equivalence.EveryScriptFinishesInMemory` | api/queue.go:317-335 | every job with a handler and every script have a memory run with one worker in which the job follows the script to its end |
| `Equivalence.EveryScriptAgrees` | api/memory.go:46-73 | so every job and script have finished runs on both backends, with equal outcomes, counts and verdict |
| `Registry.FirstRegistrationWins` | api/queue.go:423-468 | over any sequence of registrations the first legal one for a name wins for ever, stored under its own shape with the other shape empty |
| `Registry.HandlerRegistry.RegisterHandler` | api/queue.go:423-440 | rejects an empty name, a nil function and a taken name, whichever method took it, and keeps one shape per entry |
| `Registry.HandlerRegistry.RegisterHandlerCtx` | api/queue.go:451-468 | the same for the context-aware shape, which is the one it sets |
| `Registry.HandlerRegistry.HasRegisteredHandler` | api/queue.go:349-357 | true exactly for the names that have been registered: the shape test never rejects an entry |
| `Configuration.Config.SetDefaults` | api/queue.go:150-183 | every input becomes a complete configuration with 1 <= ReaperInterval <= LockTimeout, a complete one is kept, and each value given is kept unless out of range |
| `Configuration.RecoveryWithinTwoTimeouts` | api/queue.go:171-182 | under any completed configuration a lock without an override is gone or replaced within twice the lock timeout |

## Left out

- Command-level interleaving of claims, settlements and reaps for every result outside `Commands.dfy`: the source has no transaction there, so those results take each as one step.
- Redis connections, pools, SCAN cursors and reply decoding, error replies, a missing pool, an unknown backend and the error counters: library plumbing around the commands modelled here.
- The scan loop's sleeps and recursive restart: scheduling only; any pending key may be claimed next at any time.
- `Close`, shutdown flags, wait groups and handler contexts: process lifecycle; the memory machine is modelled up to `Close`.
- Configuration files, the service provider, logging, SQL migrations, the bench programs and their sample handlers: wiring; a handler is an arbitrary outcome.
- Payload marshalling, exception texts (kinds instead), `CreatedAt` and `UpdatedAt`: they decide nothing.
- Database rows of the memory backend: the completed and failed lists stand for the jobs its two record functions are called with.
- 64-bit overflow of counters and durations: integers are unbounded.
- Clock skew between processes and a clock that runs backwards: one monotone clock.
- Several reapers adding to the shared counters at once: counters are those of one process.
- NormaliseIsCanonical: lower-casing covers ASCII letters only.
- MatchesItsChannel: covers channels without glob characters, as Depth puts the channel into a pattern unescaped.
- OrphanWindow: takes reaper visits as instantaneous; a tick that runs long adds its own length.
