# A verified model of resilience4ts' coordination protocols

resilience4ts lets many Node.js processes coordinate through one Redis server: a bulkhead, a rate
limiter, a lock queue, a lease lock, a circuit breaker, a retry budget and a read-through cache. It
also races promises in-process without leaking them. This project models these protocols in Dafny
and proves what they keep in every run.

`dafny verify dfyconfig.toml` checks everything.

## How the project is organised

Most protocols come in two files.

- The **protocol** file has a `State` (the shared keys and every caller's locals), the `Action`s a
  caller or the clock can take, `Step`, and `Exec` over a sequence of actions. An action whose
  caller is somewhere else does nothing, so *every* sequence of actions is a run, and a lemma about
  all sequences is about every interleaving of any number of callers, with any clock readings. The
  theorems are lemmas of these files.
- The **code** file has the TypeScript code as classes over a mutable `Redis` object. Each method is
  what runs between two awaits, and its postcondition equates the whole new state with the
  protocol's step, so the theorems are about the code. Whole calls of the bulkhead and the breaker
  are methods too; at their awaits a method `Elsewhere` lets others do anything they may.

| protocol | protocol file | code file |
|---|---|---|
| Redis commands used | `redis.dfy` (`SortedSets`) | `redis.dfy` (`RedisStore`) |
| bulkhead semaphore | `semaphore.dfy`, `overtaking.dfy` | `bulkhead.dfy` |
| sliding-window limiter | `rate_limiter.dfy`, `window_bound.dfy` | `rate_limiter.dfy` |
| FIFO lock queue | `lock_queue.dfy`, `triangular.dfy` | `concurrent_queue.dfy` |
| promise race | `race.dfy`, `race_winner.dfy` | `safe_promise.dfy` |
| circuit breaker | `circuit.dfy`, `circuit_thresholds.dfy`, `circuit_canary.dfy`, `circuit_half_open.dfy`, `circuit_overlap.dfy`, `circuit_ledger.dfy`, `canary_limit.dfy`, `circuit_inflight.dfy` | `circuit_breaker.dfy` |
| lease lock | `lease_lock.dfy` | `concurrent_lock.dfy` |
| retry | `retry_budget.dfy`, `backoff.dfy` | `retry_window.dfy`, `backoff.dfy` |
| cache and buster | `cache_coherence.dfy` | `cache.dfy` |

## Conventions

- One Redis command is one atomic step. `multi().exec()` is the run of its commands with nothing in
  between. `execAsPipeline()` is one step per command, so other callers may step in between.
- A batch is the commands queued since the previous `exec`. As the bulkhead and the limiter queue
  all batches on one pipeline object, a client may instead send the earlier commands again. The
  semaphore covers this with steps that are open at any time (`Prune`, `Intersect`, `Burn`, and the
  detour of a refused caller through `Readding`), the limiter with the parameter `resends`.
- The limiter's `getRateWindow` is the bulkhead's `acquireSemaphore` with `limit = permitLimit`,
  `lease = window` and a pipeline in place of MULTI. Overlapping guard calls are therefore runs of
  the same semaphore machine, and `WindowBound` is about them; `RateLimiter` is about guard calls
  that follow each other.
- Sorted-set members (uuids) are numbered in byte order, so that ties of score break as in Redis.
  Distinct calls have distinct members. Key builders give distinct keys; JSON is the identity.
- Clock readings and scores are integers (milliseconds) and the clock never goes back. Backoff
  delays and thresholds are reals.
- Every Redis command succeeds.
- A half-open breaker call does not wait for its canary. `CircuitCanary` has the canary one step per
  command, and shows that whatever any number of canaries does is a list of `Background` events:
  new buckets, moved in-flight counters, counted rejections. `Circuit` lets any such list come in
  wherever a call could notice it, so its theorems cover canaries of any speed. The simple machine
  takes the new buckets at the same points. Bucket ids are numbered in the order of creation.
- The in-process and distributed bulkhead strategies differ only in their key.

## Where code and documentation differ

The model follows the code.

- `halfOpenLimit` is documented as the number of executions allowed while half-open, but
  `circuit-breaker.ts:95` does not await `onHalfOpen()`. On a clock past the interval the limit holds
  in every run of non-overlapping calls exactly if the breaker never trips (a percentage threshold
  above one), or a single failure trips it and the limit is at least 1 (`HalfOpenLimitIff`): then each
  half-open phase ends with its first execution. If one failure does not trip, as with the default
  minimum of three, a half-open breaker runs any number of failing calls that are more than the
  interval apart, whatever the limit (`HalfOpenRunsOn`). What the limit does hold to is the number of
  canaries counted in one bucket at a time (`CanariesWithinLimit`). A half-open call takes one from
  the in-flight counters that only its canary could have added (`CallBalances`), so each denied canary
  leaves them one too low (`DeniedCanariesLeak`), without bound (`LeakIsUnbounded`).
- Canaries that nobody waits for disturb later calls. A slow canary's bucket makes the breaker forget
  failures (`SlowCanaryDropsFailure`), and an outcome can be counted in a bucket that is no longer
  the newest: exactly when a newer one comes between the lookup and the count (`NewestCountsIff`).
- A success whose bucket is lost is thrown inside the `try`, so `circuit-breaker.ts:104-110` goes on
  to `onError()` and counts it as a failure (`Circuit.Record`).
- An outcome that arrives while the breaker is open closes it if it is a success
  (`LateOutcomeDecides`): a call admitted before a trip can undo it (`LateSuccessReopens`).
- `circuit-breaker.ts:66-73` takes a registry score of 0, that of a closed breaker, for no
  registration: each further `init` on a closed breaker registers it again and forgets its outcomes
  (`Breaker.constructor`, `RegistrationForgets`).
- `concurrent-lock.ts:94-95` passes EXPIRE, which takes seconds to live, an absolute time in
  milliseconds. `LeaseLock` keeps this, with the unit of EXPIRE's argument as a parameter.
- `retry.ts:72` likewise passes the window size in milliseconds to EXPIRE.
- `safe-promise.ts:81-86` says the race goes to the earliest contender already settled, as with
  `Promise.race`. `RaceGoesToTaker` says who takes the race, for every list of contenders and
  whatever happens after the start that does not disturb it (see the hypotheses). It is the
  earliest settled one exactly unless that one is `Overlooked`: it and all before it are registered,
  its watcher has not run, and another settled contender comes up where the pass stops, or has its
  watcher due earlier (`EarliestSettledWinsIff`). `LaterContenderCanWin` is such a run.
- "At most `windowBudget` invocations per zeroing of the bucket" holds for every run that ends before
  a time c exactly if the budget is zero or c is not past the time the bucket may be lost, a thousand
  windows after its own (`BudgetHoldsIff`). After that an increment creates the bucket again with no
  zeroing and no expiry (`StaleIncrementRevives`). What holds for ever is `BudgetPerEpoch`.
- `concurrent-queue.ts:186` looks at 20 entries only. A caller with 20 or more entries ahead is
  turned down even if all of them have expired (`CheckSucceedsIff`, `FullSnapshotTurnsDown`).

## Hypotheses, and why they are there

- Insertion in ticket order (`OrderedPermitBound`): without it no constant bounds the permits,
  `OvertakingDefeatsTheLimit`.
- Arrivals sort after the entries present (`MutualExclusion`, `FirstInFirstServed`): a late entry
  lets two callers in, `LateEntryBreaksExclusion`.
- Heartbeats within `delay` of being due (`AtMostOneHolder`): `LateHeartbeatHasTwoHolders`; and a
  `Safe` configuration: `ExclusiveIffSafe` says it is exactly what is needed. On any clock past the
  drift, safe means that the delay is below the refresh interval (`SafeIffRefreshInTime`).
- Nothing disturbs a race (`RaceGoesToTaker`): no contender settles or is cancelled, and no other
  race, in flight at the start or started during a yield, registers a contender that was new and has
  settled. `SettlementWhileYielding`, `RegistrationWhileYielding`, `StartWhileYielding`.
- The highest-ticket grant of a window was decided by its end (`GrantsPerWindow`):
  `LateDecisionOverfills`.
- Busters that delete (`StaleEntryExplained`): `DecliningLeavesStale`. The other excuse the lemma
  grants an entry occurs too: `StraddlingStoreStaysStale`.
- Fresh canaries allowed: a clock beyond `interval`, or `halfOpenLimit >= 1` and no other canary
  counting itself at that moment (`BreakerRefinesSimple`). With no other canary about,
  `OpenGateAgreesIff` says it is exactly what is needed.
- Timely circuit lookups (a bucket just created is found by the second lookup, at least two lookups
  allowed): `LostIff` says exactly when a lookup is lost instead.

## Model

| member | source | states |
|---|---|---|
| Semaphore.StepKeepsInv | packages/bulkhead/lib/internal/bulkhead-strategy.ts:28-74 | every single command of any caller, re-sent ones included, keeps the agreement of both sets, the counter and every caller's locals |
| Semaphore.RunKeepsInv | packages/bulkhead/lib/internal/bulkhead-strategy.ts:28-74 | so every interleaving does |
| Semaphore.SetsAgree | packages/bulkhead/lib/internal/bulkhead-strategy.ts:33-59 | an id only in the timestamp set is mid-insert; one only in the owner set is mid-removal or past its lease; a permit within its lease is in both |
| Semaphore.OwnerTickets | packages/bulkhead/lib/internal/bulkhead-strategy.ts:36-49 | owner scores are pairwise distinct and never above the shared counter |
| Semaphore.GrantStep | packages/bulkhead/lib/internal/bulkhead-strategy.ts:52-63 | every permit held goes back to one rank reading of the run, and its record is who ranked ahead and who was overtaken right then |
| Semaphore.PermitBound | packages/bulkhead/lib/internal/bulkhead-strategy.ts:28-74 | in every interleaving the live holders number at most the limit plus the callers that held a smaller ticket not yet inserted when the highest-ticket holder was granted |
| Semaphore.OrderedPermitBound | packages/bulkhead/lib/internal/bulkhead-strategy.ts:28-74 | with insertions in ticket order at most `limit` holders are live |
| Overtaking.OvertakingDefeatsTheLimit | packages/bulkhead/lib/internal/bulkhead-strategy.ts:32-63 | without that order, for every m there is a run in which callers 1 to m each send all the commands of one attempt, first batches uninterrupted, and all m are live, whatever the (positive) limit |
| WindowBound.WasGoing | packages/rate-limiter/lib/internal/rate-limiter-strategy.ts:46-72 | whoever holds or is on the way to a permit with a ticket drawn by step k was on the way with it, or held it, at step k |
| WindowBound.GrantsPerWindow | packages/rate-limiter/lib/internal/rate-limiter-strategy.ts:41-76 | for overlapping guard calls, a window (T - window, T] holds at most permitLimit grants plus the callers overtaken by the highest-ticket grant in it, if that grant was decided by T |
| WindowBound.LateDecisionOverfills | packages/rate-limiter/lib/internal/rate-limiter-strategy.ts:46-72 | a run with a limit of one in which a window has two grants and nobody was overtaken, the second being decided after the window |
| Semaphore.AttemptDecision | packages/bulkhead/lib/internal/bulkhead-strategy.ts:32-63 | an uninterrupted attempt is granted exactly when fewer than `limit` unexpired entries are in both sets |
| Semaphore.RepeatedInsertion | packages/bulkhead/lib/internal/bulkhead-strategy.ts:48-60 | a refused caller whose pipeline sends its insertions again is back in both sets |
| Semaphore.RefusalWithdrawn | packages/bulkhead/lib/internal/bulkhead-strategy.ts:56-60 | and the removals that follow leave it in neither |
| Bulkhead.BulkheadStrategy.constructor | packages/bulkhead/lib/internal/bulkhead-strategy.ts:20-35 | the lease is maxWait plus executionTimeout |
| Bulkhead.BulkheadStrategy.DrawTicket | packages/bulkhead/lib/internal/bulkhead-strategy.ts:33-46 | the MULTI batch prunes, intersects and draws; after it every owner has a timestamp |
| Bulkhead.BulkheadStrategy.ResendPrefix | packages/bulkhead/lib/internal/bulkhead-strategy.ts:33-52 | the first batch sent again moves the state by steps the invariant covers |
| Bulkhead.BulkheadStrategy.SendStamp | packages/bulkhead/lib/internal/bulkhead-strategy.ts:48 | first insertion, with the clock reading as score |
| Bulkhead.BulkheadStrategy.SendOwner | packages/bulkhead/lib/internal/bulkhead-strategy.ts:49 | second insertion, with the ticket as score |
| Bulkhead.BulkheadStrategy.JudgeRank | packages/bulkhead/lib/internal/bulkhead-strategy.ts:51-63 | granted iff the rank among the owners exists and is below the limit |
| Bulkhead.BulkheadStrategy.Elsewhere | packages/bulkhead/lib/internal/bulkhead-strategy.ts:39-59 | at an await, any sequence of the others' commands runs, and leaves the caller where it was |
| Bulkhead.BulkheadStrategy.ReleaseSemaphore | packages/bulkhead/lib/internal/bulkhead-strategy.ts:69-74 | with others stepping in between, leaves no trace of the caller in either set; the same two removals are a refusal's and a release's |
| Bulkhead.AttemptOutcome | packages/bulkhead/lib/internal/bulkhead-strategy.ts:32-63 | an attempt among others keeps the invariant; among none it is decided by the unexpired claims |
| Bulkhead.BulkheadStrategy.AcquireSemaphore | packages/bulkhead/lib/internal/bulkhead-strategy.ts:28-67 | whatever others do at its awaits: the state is the run of all their commands, the invariant is kept, a granted caller holds a permit and a refused one has no entry; with no others, granted iff fewer than `limit` claims are unexpired |
| Bulkhead.BulkheadStrategy.TryEnterBulkhead | packages/bulkhead/lib/internal/bulkhead-strategy.ts:131-148 | for every n and whatever others do: the final state is that of the commands of n refused rounds, all begun before maxWait is over, and then of a granted attempt, or on a refusal of nothing more, maxWait being over; a round that begins in time, is left alone and finds fewer than `limit` claims unexpired makes the call succeed |
| Bulkhead.BulkheadStrategy.Call | packages/bulkhead/lib/bulkhead.ts:63-84 | whatever others do at every await: full only after rounds tried until maxWait was over, each of which could be refused; otherwise the commands of the granted round, of the others while the function runs, and of the release; the caller ends with no entry on every path |
| RateLimiter.PrefixHoldsWindow | packages/rate-limiter/lib/internal/rate-limiter-strategy.ts:46-52 | after pruning and intersecting, the owner set is exactly the grants of the current window |
| RateLimiter.WithdrawnEntry | packages/rate-limiter/lib/internal/rate-limiter-strategy.ts:58-69 | a refused request gives back both sets as they were before its entry, also if the batches are re-sent |
| RateLimiter.TicketsDrawn | packages/rate-limiter/lib/internal/rate-limiter-strategy.ts:46-72 | a guard call draws one ticket, two if its batches are re-sent, three if it is then refused |
| RateLimiter.JudgeRefinesNaive | packages/rate-limiter/lib/internal/rate-limiter-strategy.ts:58-72 | the rank decision is the naive rule's |
| RateLimiter.GuardRefinesNaive | packages/rate-limiter/lib/internal/rate-limiter-strategy.ts:41-76 | each guard call decides as "allow iff fewer than permitLimit grants in (now - window, now]", keeps the sets in agreement, and when refused leaves only the pruning behind |
| RateLimiter.DecisionsAreNaive | packages/rate-limiter/lib/internal/rate-limiter-strategy.ts:41-76 | over whole runs of guard calls the decisions are the naive rule's |
| RateLimiter.RateBound | packages/rate-limiter/lib/internal/rate-limiter-strategy.ts:41-76 | for every T, the calls allowed with a clock reading in (T - window, T] number at most permitLimit |
| RateLimiter.RateLimiterStrategy.QueuePrefix | packages/rate-limiter/lib/internal/rate-limiter-strategy.ts:48-53 | the first batch prunes, intersects and replies with the new count |
| RateLimiter.RateLimiterStrategy.GetRateWindow | packages/rate-limiter/lib/internal/rate-limiter-strategy.ts:41-76 | allowed iff the grants in the window are fewer than permitLimit, and the store then stands for the grants so far |
| LockQueue.JudgeMeans | packages/concurrent-queue/lib/concurrent-queue.ts:189-206 | the loop over the snapshot admits iff the own entry is live and everything before it has expired, and then cleans up to the largest score before it, which exists iff there is an entry before it |
| LockQueue.StepKeepsInv | packages/concurrent-queue/lib/concurrent-queue.ts:71-114 | every step of an orderly arrival keeps entries, snapshots, histories and the head of the queue in agreement |
| LockQueue.MutualExclusion | packages/concurrent-queue/lib/concurrent-queue.ts:96-207 | at most one caller is past the lock with an unexpired entry, although snapshot, clock reading and cleanup are separate steps |
| LockQueue.FirstInFirstServed | packages/concurrent-queue/lib/concurrent-queue.ts:168-207 | callers get in in the order in which their entries were added, each at most once |
| LockQueue.CleanupSparesLiveEntries | packages/concurrent-queue/lib/concurrent-queue.ts:195-199 | in any run, nobody's cleanup removes an entry before its deadline |
| LockQueue.ExpiredWaiterNeverEnters | packages/concurrent-queue/lib/concurrent-queue.ts:189-200 | in any run, a caller only gets in before its own deadline |
| LockQueue.SnapshotReaches | packages/concurrent-queue/lib/concurrent-queue.ts:180-188 | where the snapshot reaches an entry, exactly the entries sorting before it come first |
| LockQueue.SnapshotFallsShort | packages/concurrent-queue/lib/concurrent-queue.ts:180-188 | where it does not, at least 20 entries sort before |
| LockQueue.CheckSucceedsIff | packages/concurrent-queue/lib/concurrent-queue.ts:168-207 | an uninterrupted check succeeds iff the own entry is stored and live, all entries ahead have expired, and they are fewer than 20 |
| LockQueue.CleanupDropsWhatWasShown | packages/concurrent-queue/lib/concurrent-queue.ts:189-199 | whatever happens between the decision and the cleanup, after it no entry is stored with a score from zero to one the snapshot showed before the own |
| LockQueue.AdmissionClears | packages/concurrent-queue/lib/concurrent-queue.ts:168-207 | an uninterrupted successful check removes exactly the entries ahead with scores of zero or more, and moves nothing else but the own place |
| LockQueue.CheckClearsTheWay | packages/concurrent-queue/lib/concurrent-queue.ts:71-207 | in every run, after it nobody is ahead of the caller; its own entry and every live one are stored with their scores |
| LockQueue.AttemptsAreChecks | packages/concurrent-queue/lib/concurrent-queue.ts:96-104 | in every run the attempts of a waiting caller count the checks it made, at most maxAttempts |
| LockQueue.GivesUpAfterAllChecks | packages/concurrent-queue/lib/concurrent-queue.ts:96-112 | in every run a caller that leaves without having been admitted has made all maxAttempts checks |
| LockQueue.NobodyLeavesAnEntry | packages/concurrent-queue/lib/concurrent-queue.ts:84-112 | in every run nothing is stored of a caller that has not added its entry yet or is done |
| LockQueue.LeavingTakesOwnEntry | packages/concurrent-queue/lib/concurrent-queue.ts:106-112 | after the function, or after the last attempt, the finally block removes the own entry and no other |
| LockQueue.FullSnapshotTurnsDown | packages/concurrent-queue/lib/concurrent-queue.ts:180-206 | a run for every n of at least 20 in which n expired entries ahead make the check of a live caller fail, though nobody live is ahead |
| LockQueue.LateEntryBreaksExclusion | packages/concurrent-queue/lib/concurrent-queue.ts:84-112 | a run in which an earlier deadline is stored later and two callers are inside, both unexpired |
| ConcurrentQueue.JudgeSnapshot | packages/concurrent-queue/lib/concurrent-queue.ts:179-206 | the loop with its growing `expired` list admits iff the own entry is the first live one, with the largest of the scores before it |
| ConcurrentQueue.WaitForTurn | packages/concurrent-queue/lib/concurrent-queue.ts:96-104 | giving up happens after exactly maxAttempts checks and a sleep equal to the deadline's offset; otherwise the first check that succeeds ends it, before the offset |
| ConcurrentQueue.LockQueueClient.constructor | packages/concurrent-queue/lib/concurrent-queue.ts:77-81 | the deadline's offset is backoff times the triangle of maxAttempts |
| ConcurrentQueue.LockQueueClient.AddEntry | packages/concurrent-queue/lib/concurrent-queue.ts:84-89 | ZADD with the deadline as score is the protocol's arrival |
| ConcurrentQueue.LockQueueClient.TakeSnapshot | packages/concurrent-queue/lib/concurrent-queue.ts:180-188 | the range query is the protocol's snapshot |
| ConcurrentQueue.LockQueueClient.AcquireLock | packages/concurrent-queue/lib/concurrent-queue.ts:189-206 | the judgement is the protocol's decision |
| ConcurrentQueue.LockQueueClient.ClearExpired | packages/concurrent-queue/lib/concurrent-queue.ts:195-199 | the range removal, which does nothing when nothing has expired, is the protocol's cleanup |
| ConcurrentQueue.LockQueueClient.FixDeadline | packages/concurrent-queue/lib/concurrent-queue.ts:84 | the deadline is the clock plus the offset |
| ConcurrentQueue.LockQueueClient.Return | packages/concurrent-queue/lib/concurrent-queue.ts:106 | the function is over and the finally block is next |
| ConcurrentQueue.LockQueueClient.GiveUp | packages/concurrent-queue/lib/concurrent-queue.ts:175-177 | with the attempts used up the finally block is next |
| ConcurrentQueue.LockQueueClient.RemoveEntry | packages/concurrent-queue/lib/concurrent-queue.ts:110-112 | after the finally block the entry is gone |
| Triangular.TriangleClosed | packages/concurrent-queue/lib/concurrent-queue.ts:79-81 | the reduced sum is n(n+1)/2 |
| Triangular.ChecksPrecedeDeadline | packages/concurrent-queue/lib/concurrent-queue.ts:96-104 | every permitted check starts, counting sleep only, strictly before the deadline |
| Triangular.SumOfDelays | packages/concurrent-queue/lib/concurrent-queue.ts:79-81 | the reduce over n delays is delay times the triangle |
| Race.ScanStops | packages/core/lib/util/safe-promise.ts:87-115 | the first pass stops at the first contender that is not registered and unsettled |
| Race.JoinEffect | packages/core/lib/util/safe-promise.ts:119-138 | the second pass leaves the settler with every contender, or decides by the first in list order found settled; nothing else changes |
| Race.StepKeepsInv | packages/core/lib/util/safe-promise.ts:60-215 | every microtask-level step keeps the registry invariant |
| Race.RegistryIsClean | packages/core/lib/util/safe-promise.ts:119-193 | a settled record is empty; a settler in a record belongs to an unfinished race that lists the contender, so a finished race's settler is nowhere |
| Race.SettledForever | packages/core/lib/util/safe-promise.ts:167-193 | a record is never replaced: it keeps the settler of every race still waiting, and once settled stays settled and empty |
| Race.CleanUpFinishes | packages/core/lib/util/safe-promise.ts:142-150 | in every run the finally block of a decided race finishes it with the outcome it was decided by and takes its settler out of every record; every other settler, every flag and every other race stays |
| Race.FollowedOutcomeIsTaken | packages/core/lib/util/safe-promise.ts:72-112 | in every run a race that awaits one contender finishes with that contender's outcome once there is one, and moves nothing else |
| Race.CancelRejectsAndForgets | packages/core/lib/util/safe-promise.ts:205-215 | in every run cancel rejects all undecided registered races over an unsettled contender and no other, and leaves no settler with it; a contender settled or unknown is left alone |
| Race.OutcomeIsFinal | packages/core/lib/util/safe-promise.ts:140-193 | nothing that happens later changes a decided race |
| Race.FollowerIsCommitted | packages/core/lib/util/safe-promise.ts:87-112 | a race that returns a contender can only finish with that contender's outcome |
| Race.OutcomeIsAContenders | packages/core/lib/util/safe-promise.ts:60-153 | without cancellation a race only takes the outcome of one of its own contenders |
| Race.FirstSettlementDecides | packages/core/lib/util/safe-promise.ts:176-190 | a registered race is decided by the first watcher or cancellation of one of its contenders, with that outcome, and by no other step |
| Race.SettledContenderDecides | packages/core/lib/util/safe-promise.ts:176-190 | once the watcher of a contender is due, running the jobs up to it decides the race |
| Race.SettlementIsDue | packages/core/lib/util/safe-promise.ts:167-193 | while a contender of an undecided race is settled, its watcher is due |
| Race.NewlyRegisteredWins | packages/core/lib/util/safe-promise.ts:101-112 | a contender already settled when registered wins when the race resumes: one `await null` is enough |
| RaceWinner.StepKeepsDestiny | packages/core/lib/util/safe-promise.ts:87-190 | no action of any race, settlement or cancellation that leaves the contenders alone changes who is bound to take the race |
| RaceWinner.ScanDestined | packages/core/lib/util/safe-promise.ts:87-138 | after a yield, the first settled contender from there is bound to take the race, or else the first one the second pass finds flagged, or nobody |
| RaceWinner.RaceGoesToTaker | packages/core/lib/util/safe-promise.ts:60-153 | for every list of contenders, new ones and primitive values included, and every undisturbed continuation, the race is on its way with a job of it due, or has gone to the contender `TakerOf` names |
| RaceWinner.RaceGetsToTaker | packages/core/lib/util/safe-promise.ts:104-151 | running the due jobs gets it there |
| RaceWinner.EarliestSettledWinsIff | packages/core/lib/util/safe-promise.ts:81-115 | in every undisturbed continuation the taker is the earliest settled contender, Promise.race's choice, iff that one is not overlooked |
| RaceWinner.NobodySettledWaits | packages/core/lib/util/safe-promise.ts:117-140 | with no contender settled the race stays undecided in every undisturbed continuation |
| RaceWinner.SettlementWhileYielding | packages/core/lib/util/safe-promise.ts:104-115 | a run in which a contender that settles during a yield overtakes the one settled before the race |
| RaceWinner.RegistrationWhileYielding | packages/core/lib/util/safe-promise.ts:101-115 | a run in which another race registers a settled contender during a yield, and a later one wins |
| RaceWinner.StartWhileYielding | packages/core/lib/util/safe-promise.ts:101-115 | the same with no race in flight at the start, the other race being started during the yield |
| RaceWinner.StaleFlagIsSkipped | packages/core/lib/util/safe-promise.ts:91-101 | a settled contender whose flag is stale is passed over for a later one |
| RaceWinner.LaterContenderCanWin | packages/core/lib/util/safe-promise.ts:81-101 | a reachable run in which this happens, against the rule of Promise.race |
| SafePromise.Registry.AddRaceContender | packages/core/lib/util/safe-promise.ts:101-105 | the new record, its watcher if already due, and the yield of the race, in this order |
| SafePromise.Registry.LeaveSettlers | packages/core/lib/util/safe-promise.ts:124-138 | the loop is the second pass |
| SafePromise.Registry.WalkContenders | packages/core/lib/util/safe-promise.ts:87-115 | the loop is the first pass up to the next await |
| SafePromise.Registry.RaceStart | packages/core/lib/util/safe-promise.ts:67-87 | no contender: pending; one: awaited; more: the first pass |
| SafePromise.Registry.RaceResume | packages/core/lib/util/safe-promise.ts:105-112 | after the yield the new record decides or the pass goes on |
| SafePromise.Registry.CallSettlers | packages/core/lib/util/safe-promise.ts:178-186 | calling all settlers, in any order, decides exactly the undecided races among them |
| SafePromise.Registry.FireWatcher | packages/core/lib/util/safe-promise.ts:176-190 | the races are decided, the record cleared and flagged |
| SafePromise.Registry.Cancel | packages/core/lib/util/safe-promise.ts:205-215 | an unsettled contender's undecided races are rejected and its record emptied, its flag left alone |
| SafePromise.Registry.RunMicrotask | packages/core/lib/util/safe-promise.ts:105-190 | taking the oldest job keeps the registry invariant |
| SafePromise.Registry.DropSettler | packages/core/lib/util/safe-promise.ts:142-150 | the finally block finishes the race with its outcome and takes its settler out of every record, repeated contenders included; every other settler and flag stays |
| SafePromise.Registry.TakeFollowed | packages/core/lib/util/safe-promise.ts:72-112 | the awaited contender's outcome becomes the race's |
| Circuit.BackgroundRefines | packages/circuit-breaker/lib/circuit-breaker.ts:210-253 | whatever canaries do in the background, the newest bucket and its outcomes are what the simple machine remembers; it changes exactly if a bucket stamped no earlier is created |
| Circuit.LookupRefines | packages/circuit-breaker/lib/circuit-breaker.ts:255-268 | a timely lookup finds the newest bucket, whoever created it, or creates one and finds the newest then |
| Circuit.LostIff | packages/circuit-breaker/lib/circuit-breaker.ts:255-268 | a lookup is lost iff at every check all buckets, the background's included, are older than the interval |
| Circuit.FirstCanary | packages/circuit-breaker/lib/internal/circuit-breaker-strategy.ts:18-24 | after the open window the awaited canary passes iff halfOpenLimit is at least 1 or the clock is past interval; past interval it passes whatever other canaries do |
| Circuit.RecordRefines | packages/circuit-breaker/lib/circuit-breaker.ts:157-197 | the outcome is judged with the list of the bucket found, and remembered with it unless a newer bucket has come in between |
| Circuit.NewestCountsIff | packages/circuit-breaker/lib/circuit-breaker.ts:157-197 | in the stored hashes, the newest bucket's success or failure counter goes up by one iff no newer bucket came between lookup and count, and else stays |
| Circuit.OutcomeRememberedIff | packages/circuit-breaker/lib/circuit-breaker.ts:157-197 | the simple machine remembers the outcome with those since the newest bucket's creation iff none came in between |
| Circuit.CallRefines | packages/circuit-breaker/lib/circuit-breaker.ts:83-116 | one call on the hash counters, canaries of any speed in the background, replies and moves as the machine that only remembers the outcomes since the newest bucket |
| Circuit.HalfOpenRunsAnyway | packages/circuit-breaker/lib/circuit-breaker.ts:94-96 | while half-open a call runs the function and is judged by its outcome, whatever its canary says |
| CircuitThresholds.OneFailureTripsIff | packages/circuit-breaker/lib/internal/circuit-breaker-strategy.ts:27-49 | one failure trips iff minimumFailures and threshold are at most one |
| CircuitThresholds.EnoughFailuresTrip | packages/circuit-breaker/lib/internal/circuit-breaker-strategy.ts:27-49 | unless the threshold is a percentage above one, there is a first number of failures that trips |
| HalfOpenLimit.OneExecutionAPhase | packages/circuit-breaker/lib/circuit-breaker.ts:83-116 | if one failure trips, every half-open phase of every run has one execution at most, canaries of any speed included |
| HalfOpenLimit.HalfOpenRunsOn | packages/circuit-breaker/lib/circuit-breaker.ts:94-116 | if one failure does not trip, for every n a half-open breaker with an expired bucket runs n failing calls, each throwing its own error, and is still half-open, whatever halfOpenLimit |
| HalfOpenLimit.HalfOpenLimitIff | packages/circuit-breaker/lib/circuit-breaker.ts:83-244 | from every registration on a clock past the interval, every run keeps each half-open phase to halfOpenLimit executions iff the breaker never trips, or one failure trips and the limit is at least 1 |
| Circuit.OpenGateAgreesIff | packages/circuit-breaker/lib/circuit-breaker.ts:230-240 | after the open window, gate and simple machine agree iff the fresh canary is allowed |
| Circuit.RegistrationForgets | packages/circuit-breaker/lib/circuit-breaker.ts:277-288 | a registration, the first or a later one, leaves a closed breaker with no outcomes |
| Circuit.BreakerRefinesSimple | packages/circuit-breaker/lib/circuit-breaker.ts:83-268 | from a registration on, over every run of non-overlapping calls, half-open canaries of any speed included, replies and final state are the simple machine's |
| Circuit.OpenWindowIff | packages/circuit-breaker/lib/circuit-breaker.ts:230-244 | while open a call is refused iff the clock has not passed the newest bucket's creation plus interval, and a refusal only counts a rejection |
| Circuit.OpenWindowIsSafe | packages/circuit-breaker/lib/circuit-breaker.ts:157-244 | after a trip all calls within the window are refused, and each changes nothing but one rejection counter |
| Circuit.RejectionsOnly | packages/circuit-breaker/lib/circuit-breaker.ts:230-244 | with no canary under way, n refusals leave n rejections in the newest bucket and no other change, in particular no new bucket |
| CircuitLedger.BackgroundMoves | packages/circuit-breaker/lib/circuit-breaker.ts:210-253 | background events move each counter's total over all buckets by what they say and no more; a fresh bucket adds nothing |
| CircuitLedger.LookupMoves | packages/circuit-breaker/lib/circuit-breaker.ts:246-268 | a lookup, however many buckets it creates, moves no counter and no state |
| CircuitLedger.EnterMoves | packages/circuit-breaker/lib/circuit-breaker.ts:90-101 | at the gate: one more in flight if let through from closed or after the open window, nothing if half-open, one rejection if refused; the state changes only at the end of the open window |
| CircuitLedger.RecordMoves | packages/circuit-breaker/lib/circuit-breaker.ts:104-110 | an outcome adds one success and closes, or one failure and opens if it trips; a success whose bucket is lost is a failure if a bucket is found then; a lost outcome adds nothing |
| CircuitLedger.ExitMoves | packages/circuit-breaker/lib/circuit-breaker.ts:111-114 | the finally block takes one from the in-flight total if it finds a bucket and keeps the reply, else it adds nothing and the call is lost |
| CircuitLedger.ServeMoves | packages/circuit-breaker/lib/circuit-breaker.ts:83-116 | what a whole call adds to each counter's total, for every background and also if lookups are lost |
| CircuitLedger.CallBalances | packages/circuit-breaker/lib/circuit-breaker.ts:83-116 | a call that loses no lookup leaves the in-flight total as it was, or one lower if it came in half-open, counts its reply once in the one counter it belongs to, and leaves the state the reply says |
| CircuitLedger.QuietCallBalances | packages/circuit-breaker/lib/circuit-breaker.ts:83-116 | if no canary counts itself during the call, the in-flight total is the same afterwards, or one lower if it came in half-open |
| CircuitLedger.RunBalances | packages/circuit-breaker/lib/circuit-breaker.ts:83-116 | over every run of non-overlapping calls that lose no lookup the totals are the numbers of refused, returned and failed replies, and minus the half-open entries for the in-flight counter, besides the background |
| CircuitLedger.CanariesBalance | packages/circuit-breaker/lib/circuit-breaker.ts:210-228 | whatever turns the canaries take, the in-flight total moves with the number of canaries counted in, the rejections with those turned away, the outcomes not at all |
| CircuitLedger.RecordStamps | packages/circuit-breaker/lib/circuit-breaker.ts:157-166 | the bucket a failure is counted in is stamped with the clock reading made for it, also after a lost success |
| CanaryLimit.LoneCanary | packages/circuit-breaker/lib/internal/circuit-breaker-strategy.ts:18-24 | a canary left alone passes iff it fits under halfOpenLimit or its bucket's last failure is older than the interval; turned away it leaves a rejection and no count |
| CanaryLimit.CanariesWithinLimit | packages/circuit-breaker/lib/circuit-breaker.ts:210-228 | in every interleaving of canaries, while the bucket's failure is recent and no call leaves, those that pass and the calls in flight before them are at most halfOpenLimit |
| CircuitCanary.CanariesAreBackground | packages/circuit-breaker/lib/circuit-breaker.ts:210-228 | the un-awaited canaries of any number of calls, their commands in any order, only ever do what the background may |
| CircuitCanary.SlowCanaryCreates | packages/circuit-breaker/lib/circuit-breaker.ts:246-268 | a canary that found no bucket creates one however late it gets to it |
| CircuitCanary.SlowCanaryDropsFailure | packages/circuit-breaker/lib/circuit-breaker.ts:94-114 | two failures that trip a half-open breaker do not if the first call's canary creates its bucket between them |
| CircuitOverlap.LateOutcomeDecides | packages/circuit-breaker/lib/circuit-breaker.ts:157-197 | an outcome counted while the breaker is open leaves it closed iff it is a success; a call inside the open window then gets in iff it is |
| CircuitOverlap.LateSuccessReopens | packages/circuit-breaker/lib/circuit-breaker.ts:157-197 | a call admitted before another one trips the breaker closes it by succeeding, and the next call gets in inside the open window |
| Circuit.OpensIff | packages/circuit-breaker/lib/circuit-breaker.ts:157-182 | the breaker trips iff an admitted call fails and the outcomes since the newest bucket trip |
| CircuitThresholds.TripsMeans | packages/circuit-breaker/lib/internal/circuit-breaker-strategy.ts:27-49 | that is: failures at least minimumFailures, and at least the threshold, times the number of outcomes for the percentage strategy |
| CircuitBreaker.ModeOf | packages/circuit-breaker/lib/circuit-breaker.ts:270-275 | the registry's scores and the states are inverse to each other |
| CircuitBreaker.Breaker.constructor | packages/circuit-breaker/lib/circuit-breaker.ts:64-78 | an unregistered breaker, and one registered as closed, is registered with a fresh bucket; one half-open or open is left alone |
| CircuitBreaker.Breaker.GetTimeseriesData | packages/circuit-breaker/lib/circuit-breaker.ts:298-315 | the newest bucket stamped within the interval, or none |
| CircuitBreaker.Breaker.OnExpired | packages/circuit-breaker/lib/circuit-breaker.ts:246-253 | a fresh bucket in timeline and hashes |
| CircuitBreaker.Breaker.GetActiveBucket | packages/circuit-breaker/lib/circuit-breaker.ts:255-268 | the bounded recursion, with ids kept fresh |
| CircuitBreaker.Breaker.OnClosed | packages/circuit-breaker/lib/circuit-breaker.ts:204-208 | the call is counted in the active bucket |
| CircuitBreaker.Breaker.OnHalfOpen | packages/circuit-breaker/lib/circuit-breaker.ts:210-228 | the awaited canary's verdict and counters |
| CircuitBreaker.Breaker.CanaryTurn | packages/circuit-breaker/lib/circuit-breaker.ts:210-228 | one command of an un-awaited canary is the canary's step: passed, turned away and lost canaries are told apart |
| CircuitBreaker.Breaker.OnOpen | packages/circuit-breaker/lib/circuit-breaker.ts:230-244 | refused inside the window, half-open after it |
| CircuitBreaker.Breaker.OnSuccess | packages/circuit-breaker/lib/circuit-breaker.ts:184-197 | counted in the bucket found, and the circuit closed; false if none is found |
| CircuitBreaker.Breaker.OnError | packages/circuit-breaker/lib/circuit-breaker.ts:157-182 | counted, stamped, judged on the counters read back |
| CircuitBreaker.Breaker.CountOutcome | packages/circuit-breaker/lib/circuit-breaker.ts:104-110 | try and catch: what onSuccess throws goes on to onError |
| CircuitBreaker.Breaker.Finally | packages/circuit-breaker/lib/circuit-breaker.ts:111-114 | the bucket active at the end is decremented; if none is found, that is thrown instead of any other reply |
| CircuitBreaker.Breaker.On | packages/circuit-breaker/lib/circuit-breaker.ts:83-116 | reply and stored state of a whole call are those the refinement is about |
| CircuitInFlight.StepMovesShare | packages/circuit-breaker/lib/circuit-breaker.ts:204-228 | every step of a call moves some bucket by exactly the change of the call's share |
| CircuitInFlight.CountersBalance | packages/circuit-breaker/lib/circuit-breaker.ts:90-114 | in every interleaving of overlapping calls, inFlight over all buckets is admitted calls in progress plus counted canaries minus finished half-open calls |
| CircuitInFlight.InFlightIsConserved | packages/circuit-breaker/lib/circuit-breaker.ts:90-114 | for calls admitted from closed or open it is exactly the calls in progress, even when one bucket is incremented and another decremented |
| CircuitInFlight.DeniedCanariesLeak | packages/circuit-breaker/lib/circuit-breaker.ts:210-228 | at rest it is minus the number of canaries denied on the un-awaited path |
| CircuitInFlight.CallsComeToTheirEnd | packages/circuit-breaker/lib/circuit-breaker.ts:90-114 | after every run a new call can take each of its courses to the end, and only a denied canary changes what the buckets add up to, by minus one |
| CircuitInFlight.LeakIsUnbounded | packages/circuit-breaker/lib/circuit-breaker.ts:210-228 | for every n a run at rest whose counters add up to minus n |
| LeaseLock.RunKeepsHolds | packages/concurrent-lock/lib/concurrent-lock.ts:73-105 | with timely heartbeats a holder owns the stored record, and it outlives the next due time, whoever's heartbeats arrive late |
| LeaseLock.AtMostOneHolder | packages/concurrent-lock/lib/concurrent-lock.ts:68-105 | at most one call is between its SET and its DEL |
| LeaseLock.DeleteTakesOwnRecord | packages/concurrent-lock/lib/concurrent-lock.ts:101-103 | the unconditional DEL finds and removes the caller's own, unexpired record |
| LeaseLock.CallEndsFree | packages/concurrent-lock/lib/concurrent-lock.ts:99-103 | when the function is over the timer is cleared, the own record deleted and nothing else touched, and the next caller to ask gets the lock for the duration |
| LeaseLock.HeartbeatsKeepPeriod | packages/concurrent-lock/lib/concurrent-lock.ts:93-97 | in every run a heartbeat comes a full period after the SET and after the one before |
| LeaseLock.RefreshAboveDriftIsSafe | packages/concurrent-lock/lib/concurrent-lock.ts:92-97 | refreshInterval above drift plus delay is safe on any clock and in any unit of EXPIRE |
| LeaseLock.SafeIffRefreshInTime | packages/concurrent-lock/lib/concurrent-lock.ts:92-97 | on a clock past the drift, in any unit of EXPIRE, safe means a delay below refreshInterval |
| LeaseLock.ExclusiveIffSafe | packages/concurrent-lock/lib/concurrent-lock.ts:68-105 | every run with timely heartbeats has at most one holder at any time iff the configuration is safe |
| LeaseLock.DefaultsExclusiveIff | packages/concurrent-lock/lib/concurrent-lock.ts:68-105 | with the default drift factor and any duration, the lock excludes iff steps are late by less than refreshInterval |
| LeaseLock.UnsafeHasTwoHolders | packages/concurrent-lock/lib/concurrent-lock.ts:73-97 | the run with timely heartbeats and two holders: the first lease runs out before the first heartbeat, or that heartbeat shortens it |
| LeaseLock.LateHeartbeatHasTwoHolders | packages/concurrent-lock/lib/concurrent-lock.ts:73-97 | without heartbeats, every sensible configuration has a run with two holders |
| LeaseLock.Drift | packages/concurrent-lock/lib/concurrent-lock.ts:69 | the drift less two is the integer nearest to the share of the duration, halves rounded up |
| ConcurrentLock.LockClient.constructor | packages/concurrent-lock/lib/concurrent-lock.ts:68-69 | drift is the rounded share of the duration plus two |
| ConcurrentLock.LockClient.TryAcquire | packages/concurrent-lock/lib/concurrent-lock.ts:73-85 | SET NX PX succeeds iff no unexpired record is stored |
| ConcurrentLock.LockClient.Beat | packages/concurrent-lock/lib/concurrent-lock.ts:93-96 | the timer's callback, a period after the last, sends a heartbeat with its clock reading |
| ConcurrentLock.LockClient.RunExpire | packages/concurrent-lock/lib/concurrent-lock.ts:94-95 | EXPIRE with what the callback computed, on whatever record is stored when it arrives |
| ConcurrentLock.LockClient.Release | packages/concurrent-lock/lib/concurrent-lock.ts:101-103 | DEL, whoever owns the record |
| RetryBudget.BudgetPerEpoch | packages/retry/lib/retry.ts:66-97 | in every interleaving, whatever the window size, the invocations of a window bucket are at most windowBudget for each zeroing or revival of the bucket |
| RetryBudget.BudgetUntilLost | packages/retry/lib/retry.ts:66-97 | until a thousand windows after its own the bucket never expires, so the bound counts zeroings only, and is windowBudget when creation is not raced |
| RetryBudget.WindowIsFloor | packages/retry/lib/retry.ts:67 | a clock reading is in the window iff it, divided by windowSize (1 if unset) and rounded down, is the window's number |
| RetryBudget.ZeroingKeepsExpiry | packages/retry/lib/retry.ts:71 | a zeroing gives the bucket a count of zero and keeps an expiry already set; a new bucket has none |
| RetryBudget.WholeCallSpends | packages/retry/lib/retry.ts:66-97 | an uninterrupted call in the window adds one to the count and goes ahead iff the budget is not used up |
| RetryBudget.SequentialCallsUseTheBudget | packages/retry/lib/retry.ts:66-97 | of n calls one after another in one window exactly the first windowBudget go ahead, with one zeroing and no revival |
| RetryBudget.BudgetHoldsIff | packages/retry/lib/retry.ts:66-97 | every run ending before time c keeps to windowBudget per zeroing iff windowBudget is zero or c is not past the time the bucket may be lost, (window + 1000) times windowSize, or the window itself if windowSize is zero |
| RetryBudget.RacedCreationDoublesTheBudget | packages/retry/lib/retry.ts:69-73 | for every window and budget, two callers that both see no bucket zero it twice and spend the budget twice |
| RetryBudget.StaleIncrementRevives | packages/retry/lib/retry.ts:77-81 | for every window and budget, an increment as the bucket expires gets one invocation more through with no further zeroing |
| RetryBudget.UnsetWindowLosesItsBucket | packages/retry/lib/retry.ts:67-73 | for every window and budget, with no window size one zeroing lets twice the budget through |
| RetryWindow.WindowBucket.CheckExists | packages/retry/lib/retry.ts:69-70 | EXISTS decides who creates |
| RetryWindow.WindowBucket.ZeroAttempts | packages/retry/lib/retry.ts:71 | the zeroing keeps an expiry already set |
| RetryWindow.WindowBucket.SetExpiry | packages/retry/lib/retry.ts:72 | windowSize seconds to live |
| RetryWindow.WindowBucket.IncrementRetryCount | packages/retry/lib/retry.ts:77-97 | true iff the invocation is within the budget; a missing bucket is created without expiry |
| Backoff.Validate | packages/retry/lib/backoff.ts:37-55 | accepts iff the wait is positive or Immediate, and at most the linear sum and one hour |
| Backoff.LinearAcceptedIff | packages/retry/lib/backoff.ts:9-55 | all linear waits are accepted iff delay times maxAttempts is within the hour |
| Backoff.ConstantAcceptedIff | packages/retry/lib/backoff.ts:9-55 | all constant waits are accepted iff the delay is within the hour |
| Backoff.JitterAccepted | packages/retry/lib/backoff.ts:9-55 | with delay times maxAttempts within the hour all jitter waits are accepted, whatever the random rolls |
| Backoff.PowerBeatsTriangle | packages/retry/lib/backoff.ts:15-17 | 2^(n-1) exceeds n(n+1)/2 from n = 5 on |
| Backoff.ExponentialAcceptedIff | packages/retry/lib/backoff.ts:9-55 | all exponential waits are accepted iff maxAttempts is at most 4 and the last wait is within the hour |
| Backoff.LinearTotal | packages/retry/lib/backoff.ts:12-14 | k linear waits sum to delay times ((k+1)(k+2)/2 - 1) |
| Backoff.ImmediateAccepted | packages/retry/lib/backoff.ts:24-26 | Immediate waits are zero and all accepted, for every delay of zero or more |
| Backoff.NonPositiveRefused | packages/retry/lib/backoff.ts:47-49 | in every other mode a wait of zero or less is refused |
| Backoff.JitterInterpolates | packages/retry/lib/backoff.ts:18-20 | a jitter wait lies between the constant and the linear one, as far along as the roll says |
| Backoff.ExponentialDoubles | packages/retry/lib/backoff.ts:15-17 | each exponential wait is twice the one before, from the delay on |
| Backoff.ImmediateTotal | packages/retry/lib/backoff.ts:24-26 | any number of Immediate waits sum to zero |
| Backoff.Retry | packages/retry/lib/retry.ts:86-122 | the first success ends it; MaxRetriesExceeded iff it is the outcome of exactly maxAttempts failures with every wait accepted; the wait total counts exactly the waits slept; with Immediate and a delay of zero or more it never fails on a wait and never waits |
| CacheCoherence.StepKeepsEntry | packages/cache/lib/cache.ts:50-79 | every step of readers and busters keeps each entry explained |
| CacheCoherence.OthersStay | packages/cache/lib/cache.ts:50-79 | a step of a reader or a buster moves no other caller; only stores and deletes touch the store, only effects the values |
| CacheCoherence.StaleEntryExplained | packages/cache/lib/cache-buster.ts:49-73 | in every interleaving an entry that differs from the current value means a mutation between its effect and its delete, or an entry read before a mutation and stored after it |
| CacheCoherence.LookupAnswers | packages/cache/lib/cache.ts:55-62 | in every interleaving with busters that delete, a lookup misses iff no unexpired entry is stored, and a hit is the current value unless a delete is pending or the store straddled a mutation |
| CacheCoherence.MissAnswersCurrent | packages/cache/lib/cache.ts:65-72 | a miss left alone answers the current value and stores it for the expiration, unless it is falsy |
| CacheCoherence.EntryLives | packages/cache/lib/cache.ts:67-71 | whenever it is stored, an entry answers for exactly its expiration |
| CacheCoherence.DeletionClearsAllKeys | packages/cache/lib/cache-buster.ts:62-71 | the buster deletes every key of its call, changed or not, and no other |
| CacheCoherence.StraddlingStoreStaysStale | packages/cache/lib/cache.ts:57-71 | the latter occurs: a stale unexpired entry with nobody about to delete it |
| CacheCoherence.DecliningLeavesStale | packages/cache/lib/cache-buster.ts:55-62 | a buster that decides against deleting leaves a stale entry neither case explains |
| CacheDecorators.Cache.On | packages/cache/lib/cache.ts:50-79 | with coherent entries a call returns what the undecorated function would, stores only a truthy miss, and keeps coherence |
| CacheDecorators.CacheBuster.On | packages/cache/lib/cache-buster.ts:49-73 | the mutation always has its effect; the listed keys, and no others, are deleted iff the predicate holds or the function threw and invalidateOnException is set; coherence is kept iff every other stored key is left with its old value |
| SortedSets.NewestIn | packages/circuit-breaker/lib/circuit-breaker.ts:298-315 | the last member by (score, member) in a score range, none only if the range is empty |
| SortedSets.ZRange | packages/concurrent-queue/lib/concurrent-queue.ts:180-188 | the first members by (score, member) up to a score, in order, at most the count and cut short only by it |
| RedisStore.Redis.SetNxPxCmd | packages/concurrent-lock/lib/concurrent-lock.ts:74-81 | sets iff no unexpired value is stored |

## Left out

- Redis and network errors, process crashes and the `catch` branches that answer them: every command succeeds.
- `onBound`: the same bodies as `on` with a receiver.
- Circuit.Created: bucket ids are numbered in the order of creation, so of two buckets stamped in the same millisecond the later one is the newer; uuids could sort them either way.
- CircuitCanary.CanaryStep: the rejection of a denied canary nobody waits for, which nothing handles, is not modelled.
- Circuit.BreakerRefinesSimple: calls that do not overlap, as the hash counters and the state may otherwise belong to different buckets; overlapping calls are in `CircuitInFlight` for the in-flight counters and in `CircuitOverlap` for an outcome that arrives after a trip.
- CircuitInFlight.Step: which bucket a lookup finds and what a canary is told are left open, so its runs include more than the code has; a call whose lookup in the finally block is lost never takes its decrement and counts as in progress for ever.
- Bulkhead.BulkheadStrategy.TryEnterBulkhead: each refused attempt takes some positive time, any other for each; if the clock stood still the loop would not end.
- RateLimiter.RateLimiterStrategy.GetRateWindow: a guard call no other call interrupts; overlapping ones are runs of `Semaphore`.
- WindowBound.GrantsPerWindow: no bound for a window whose highest-ticket grant was decided after its end; the plain one fails there (`LateDecisionOverfills`).
- LeaseLock.AtMostOneHolder: a lock with `extensible: false` sends no heartbeats; it is covered as far as the function returns by the time its first heartbeat would have been due.
- Race.Step: the microtasks a promise takes to adopt another are not counted; only watchers and resumptions have a place in the queue, everything else may come at any time. Thenables that are not promises and the collection of unreachable contenders are not modelled.
- `getAvailablePermits`, `getClaimedCapacity`, `getWaitingCount`: single queries.
- `until` in retry: the expression is always truthy, so it changes nothing.
- `whitelist` in the circuit breaker: stored and never read.
- The budgeted retry's registration, event emitters, logging and configuration loading.
- The request-scoped cache, hedge, timeout, fallback, pipes and the NestJS module.
