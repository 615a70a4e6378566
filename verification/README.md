# Taskkit: a verified model

Taskkit is a distributed task queue. A task is queued, staged for one worker, done, and
eventually forgotten. The same lifecycle is stored in three ways (in memory, in Redis, in
SQL), and fetch loops, schedulers, heartbeats, a restorer and a cleaner act on it without
relying on a lock. This project models that and proves, in Dafny 4.11:

* **One contract, three stores.** `Lifecycle` is the task table as a state machine, with
  its whole-run theorems: every claim is closed once, no task is handed out twice unless
  it was put back, a done task stays done, a retry chain keeps the task's identity.
  `MemoryTable`, `RedisStore` with `RedisRefinement`, and `SqlRows` give each store as a
  value with its operations and its invariant. Disciplined use of the first two is a run
  of the lifecycle (`TraceRefines`), and disciplined use of SQL, with its claims taken
  apart into transactions, is a history of it (`SqlHistory.RunRefines`), which is all the
  whole-run theorems need. `MemoryBackend`, `RedisBackend` and `SqlBackend` are the
  classes that change those values in place, with the source's loops. `Fifo` is the
  order in which the in-memory table hands tasks out.
* **SQL claims under interference.** `SqlBackend.Sql.AssignTasks` is the scan-doubling
  loop, with an arbitrary environment acting before each of its transactions;
  `SqlClaims` says what such a call guarantees. `SqlRace` interleaves any number of calls
  with every other operation, `SqlHistory` draws the conclusions about whole runs, and
  `SqlCalls` shows each of those calls to be the loop, run among the others.
* **The scheduler without a lock.** `Grid`, `Schedules`, `ScheduleIds` and `Planning` are
  the arithmetic and the plan of one run, `Scheduler` the method that carries it out, and
  `SchedulerRace` any number of processes that read, plan and persist over each other.
  `Submission` follows a scheduled point into the table and out of it by a claim, and
  `Spacing` an entry with a custom policy over any number of runs.
* **The group runner.** `Runner` is the fetch loop with its permits, interleaved with
  handlers, pause and stop; `Worker` adds the handling of one task and runs the loop over
  the whole in-memory or Redis store, `SqlDrain` over SQL, where a claim is a call of
  `SqlRace`. `Halting` has what pausing and stopping do, `Shutdown` how a runner ends, and
  `Stranding` a concrete run.
* **Heartbeats and restore.** `Detector` interleaves refreshes, purges and sweeps, each
  in their separate reads and writes, with the workers' calls; `Fleet` puts any number of
  runners on top, so that what they settle is what their claims returned. `Heartbeats`
  says how long a refresh lasts, `Undisturbed` what each service comes to with nobody in
  between. `Services` is one call of each against the in-memory backend; `SlowSweep`,
  `Draining` and `LateSweep` have the concrete runs.
* **Locks and control events.** `Locks` has the expiring token lock and the in-memory
  lock, `Events` the polling subscriber of the SQL backends, and `EventLoss` what it
  misses.

Times are integers, in milliseconds. An operation is called *disciplined* when it does
what the backends ask of their callers: retry, succeed, fail and restore target a task
that is staged at that moment, and are given the record the claim returned, or its next
attempt for a retry (`Lifecycle.Disciplined`). Clock readings, tokens, verdicts of task
handlers, the moment of expiry and the choice of who acts next are inputs, so the
theorems hold for all of them.

## What the proofs turned up

* A restore acts on the task id alone. A sweep that lists a row, and finds its holder
  inactive only after the holder retried the task and another worker claimed it, takes
  the task from that other worker, even if it never missed a heartbeat
  (`SlowSweep.PunctualLosesToSlowSweep`). `Detector.PunctualLosesWhatChangedHands` says
  exactly when this happens, and `Fleet.PunctualKeepsItsTasks` under which conditions it
  cannot.
* A runner that was stopped is not refreshed while it drains, so tasks it is still
  running can be restored after its last expiry (`Draining.DrainingLosesTask`); exactly
  when a sweep does so is `Detector.DrainingLapses` with `Detector.ListedIsTaken`.
* Neither Redis nor SQL looks whether a task is finished before restoring it; exactly
  then the restore breaks the store's encoding of the lifecycle
  (`RedisRefinement.RestoreNeedsUnfinished`, `SqlRows.RestoreNeedsUnfinished`). Redis
  restores and discards also look tasks up in a step of their own, and what may happen
  in between is limited as `RedisRefinement.RestoreNeedsWaitingTask` and
  `RedisRefinement.DiscardNeedsFreshLookup` say. So a sweep that comes late can make a
  finished task claimable, and it is handed out again
  (`LateSweep.FinishedIsClaimedAgain`); `LateSweep.FinishedUnlessRevived` says that
  nothing else undoes a result.
* The SQL claim does not look at the due time again after listing, so a row retried in
  between is claimed early (`SqlRace.RetriedRowIsClaimedEarly`); the exact condition is
  `SqlHistory.TakenRowIsDue`.
* The event stream of the SQL backends loses events in two ways: of several with equal
  times, the poll that yields one loses the rest (`EventLoss.TiedEventIsLost`), and an
  event whose row is stored after a later one was polled is never fetched
  (`EventLoss.LateEventIsLost`), since a sender reads the clock before it inserts. It
  loses no others (`EventLoss.YieldedUnlessLateOrTied`).
* A claim that fails after the backend has made it, by a lost answer or an error between
  two of its SQL transactions, leaves tasks staged for a runner that does not know of
  them, and which its join does not wait for (`Stranding.FailedClaimStrands`). They are
  all that a joined runner leaves staged (`Runner.JoinedIsDrained`, `SqlDrain.SqlDrains`).
* A scheduler whose name contains NUL shares its ids with another one
  (`ScheduleIds.NulCollides`); a zone offset that is no multiple of five seconds makes
  some grid points unreachable for every schedule (`Schedules.SecondsMatchGrid`).
* A scheduler's first run looks at one point only, so two processes that start together
  lose the points between theirs if the state of the later one is what stays
  (`SchedulerRace.FirstRunsSkip`).
* The documentation of the claim promises that a short batch means a drained queue. The
  SQL loop may leave rows behind that were locked when it tried them
  (`SqlClaims.ShortBatchNotDrained`), and leaves no others
  (`SqlClaims.ShortBatchLeavesLocked`, `SqlHistory.ShortBatchLeavesLocked`).

## Model

| member | source | states |
|---|---|---|
| Ordering.SortedPrefixIsLeast | src/impls/memory.rs:93-103 | sorting by due time, then sequence number, and cutting off after k lists exactly the k least entries, in order |
| Ordering.LeastUnique | src/impls/memory.rs:93-103 | there is only one such listing, so the order of a claim is determined |
| Ordering.BeforeIsLexicographic | src/impls/redis.rs:359-385 | the tie order of Redis members: one name comes before another exactly if, where they first differ, it ends or has the smaller letter |
| Claiming.LeastIsClaim | src/backend.rs:102-115 | a listing of the least ranks of the due queued tasks meets the claim contract: earliest first, none skipped, as many as asked for or as there are |
| Lifecycle.ClaimsBalance | src/backend.rs:72-81 | over any run, claims of a task equal the retries, finishes, restores and discards of it while staged, plus one if it is still held |
| Lifecycle.NoDoubleClaim | src/backend.rs:102-106 | between two claims of one task lies a retry, restore or discard of it |
| Lifecycle.TakenUntilRequeued | src/backend.rs:104-106 | a claimed or finished task stays unavailable until one of those three |
| Lifecycle.DoneIsFinal | src/backend.rs:158-180 | a finished task keeps its outcome, is never claimed again and never closed again until it is discarded |
| Lifecycle.Lineage | src/task.rs:105-119 | a retry chain keeps id, group, name, creation time, lifetime and data, and its retry count is the number of retries in the run |
| Lifecycle.RunKeyed | src/impls/memory.rs:83-90 | every row of every reachable table is stored under its record's id |
| Lifecycle.RunIsHistory | src/backend.rs:72-81 | a run that claims in one step is also one whose claims may take any queued tasks, which is all the theorems above need |
| MemoryTable.ExecKeepsInv | src/impls/memory.rs:83-117 | every operation, used as intended or not, keeps: distinct bounded sequence numbers, began exactly when assigned and never together with done, done exactly when disposable (ttl later) and exactly one of result and error |
| MemoryTable.TraceKeepsInv | src/impls/memory.rs:83-117 | the same in every state of every run of operations |
| MemoryTable.PickedAreDue | src/impls/memory.rs:178-208 | a claim picks the first due queued entries of the group by due time and sequence number |
| MemoryTable.PickedInOrder | src/impls/memory.rs:93-103 | it lists due tasks by due time, equally due ones in the order they were put, and leaves none out for a later one |
| Fifo.BatchInOrder | src/impls/memory.rs:156-162 | tasks put in one batch are numbered in the order of the batch |
| Fifo.PutFirstClaimedFirst | src/impls/memory.rs:93-103 | over any run, retries and restores included: of two equally due tasks of a group, when a claim takes the one put later, the other is taken before it in the same batch or was not queued any more |
| MemoryTable.Simulates | src/impls/memory.rs:156-267 | every disciplined operation on the table is a step of the lifecycle |
| MemoryTable.TraceRefines | src/impls/memory.rs:156-346 | every disciplined run of the table is a run of the lifecycle, so the whole-run theorems hold of it |
| MemoryTable.ResultAgrees | src/impls/memory.rs:251-267 | the result query answers from the task's lifecycle phase |
| MemoryBackend.Memory.constructor | src/impls/memory.rs:132-143 | a new backend is empty |
| MemoryBackend.Memory.PutTask | src/impls/memory.rs:83-90 | a known id is left alone, a new one gets the next sequence number |
| MemoryBackend.Memory.PutTasks | src/impls/memory.rs:156-162 | the batch is put in order |
| MemoryBackend.Memory.PersistSchedulerStateAndPutTasks | src/impls/memory.rs:348-360 | state and tasks are written together |
| MemoryBackend.Memory.AssignTasks | src/impls/memory.rs:178-208 | exactly the picked entries become assigned; their records are returned in order |
| MemoryBackend.Memory.Stage | src/impls/memory.rs:178-208 | the marking loop: each listed entry gets start time and worker, no other entry changes |
| MemoryBackend.Memory.RetryTask | src/impls/memory.rs:221-230 | the record replaces the entry, which keeps its sequence number |
| MemoryBackend.Memory.DiscardTasks | src/impls/memory.rs:232-238 | exactly the given ids are gone |
| MemoryBackend.Memory.FinishTask | src/impls/memory.rs:105-117 | the entry, created if missing, is done with the given outcome and its disposal time |
| MemoryBackend.Memory.Succeed | src/impls/memory.rs:240-243 | finishes with a result |
| MemoryBackend.Memory.Fail | src/impls/memory.rs:245-249 | finishes with an error |
| MemoryBackend.Memory.Restore | src/impls/memory.rs:339-346 | a known entry is unassigned, whatever its state |
| MemoryBackend.Memory.FetchResult | src/impls/memory.rs:251-267 | missing, failed, no result yet, or the result: the error is looked at first |
| RedisStore.TakeableIs | src/impls/redis.rs:359-385 | the claim script takes exactly the due candidates whose metadata and data exist, in order |
| RedisStore.ClaimIsSafe | src/impls/redis.rs:359-385 | even on structures in disarray a claim takes at most `limit` distinct, due, fully stored tasks |
| RedisRefinement.ExecKeepsRep | src/impls/redis.rs:115-196 | the nine structures keep agreeing under every atomic operation that does not change a task's group: same ids in metadata and data, stage pair and done pair in step, queued ids in their own group's queue with their due time, queue and stage disjoint, every known id somewhere |
| RedisRefinement.RestoreNeedsFreshLookup | src/impls/redis.rs:629-654 | the second half of a restore keeps the structures in agreement if and only if the task is still stored with the looked-up group and due time when it moves it |
| RedisRefinement.RestoreNeedsWaitingTask | src/impls/redis.rs:629-654 | and it leaves them standing for one table if and only if, besides, the task was not finished since the lookup |
| RedisRefinement.LateRestoreSimulates | src/impls/redis.rs:629-654 | under that condition the late half is the lifecycle's restore |
| RedisRefinement.DiscardNeedsFreshLookup | src/impls/redis.rs:416-457 | the second half of a discard keeps the structures in agreement if and only if no id was queued since where the lookup did not find it |
| RedisRefinement.FreshDiscard | src/impls/redis.rs:416-457 | under that condition it discards as one step would |
| RedisRefinement.RestoreNeedsUnfinished | src/impls/redis.rs:629-654 | restoring a known task leaves the structures standing for one table if and only if the task is not finished: the code does not look |
| RedisRefinement.OnePlace | src/impls/redis.rs:115-196 | in disciplined runs a known task is in exactly one of its group's queue, the stage and the done queue, and in no other group's queue |
| RedisRefinement.PickedIsExact | src/impls/redis.rs:359-385 | the script's scan of the `limit` lowest scores finds exactly the first due ids of the group, by due time and id |
| RedisRefinement.PickedInOrder | src/impls/redis.rs:359-385 | so it lists due tasks by due time, equally due ones by name, and leaves none out for a later one |
| RedisRefinement.Simulates | src/impls/redis.rs:255-654 | every disciplined operation on the nine structures is a step of the lifecycle on the table they stand for |
| RedisRefinement.TraceKeepsSync | src/impls/redis.rs:115-654 | and every run of such operations keeps them standing for a table |
| RedisRefinement.TraceRefines | src/impls/redis.rs:115-654 | every disciplined run of the Redis backend is a run of the lifecycle |
| RedisRefinement.ResultAgrees | src/impls/redis.rs:541-570 | the result query answers from the task's lifecycle phase |
| RedisBackend.Redis.EnqueueTasks | src/impls/redis.rs:115-196 | the enqueue script: known ids are kept or replaced as asked, the scheduler state is stored with the tasks |
| RedisBackend.Redis.PutTasks | src/impls/redis.rs:255-260 | known ids are kept |
| RedisBackend.Redis.RetryTask | src/impls/redis.rs:262-265 | a known id is replaced, leaving the stage |
| RedisBackend.Redis.PersistSchedulerStateAndPutTasks | src/impls/redis.rs:656-664 | state and tasks are written by one script |
| RedisBackend.Redis.LookupTasks | src/impls/redis.rs:293-325 | one answer per id, in order: the record if metadata and data exist |
| RedisBackend.Redis.AssignTasks | src/impls/redis.rs:327-414 | the picked ids, and only they, move from queue to stage; their records are returned in order |
| RedisBackend.Redis.TakeDue | src/impls/redis.rs:359-385 | the script's loop over the candidates, which stops at the first one not due |
| RedisBackend.Redis.DiscardTasks | src/impls/redis.rs:416-457 | lookup, then anything the others do, then the removal: each id leaves the queue the lookup found it in and all other structures; with nothing in between the ids are gone from all nine |
| RedisBackend.Redis.DiscardFound | src/impls/redis.rs:424-456 | the second step alone: each looked-up id leaves the queue it was found in, and all ids leave the other structures |
| RedisBackend.Redis.Succeed | src/impls/redis.rs:459-496 | off the stage, into the done and disposable queues, with its result |
| RedisBackend.Redis.Fail | src/impls/redis.rs:498-539 | the same with an error message; a stored result stays |
| RedisBackend.Redis.Restore | src/impls/redis.rs:629-654 | lookup, then anything the others do, then the move, to the queue and with the due time the lookup found; nothing if it found no task |
| RedisBackend.Redis.RestoreFound | src/impls/redis.rs:634-653 | the second step alone: off the stage, and into the looked-up queue with the looked-up due time |
| RedisBackend.Redis.FetchResult | src/impls/redis.rs:541-570 | missing, the result, the error, or nothing yet: the result is looked at first |
| SqlRows.UnstartedIsQueued | src/impls/mysql.rs:328-348 | a NULL start column alone selects the queued tasks |
| SqlRows.Simulates | src/impls/mysql.rs:206-286 | every disciplined statement but the claim is a step of the lifecycle on the table the rows encode |
| SqlRows.RestoreNeedsUnfinished | src/impls/mysql.rs:469-480 | restoring keeps the encoding (done implies begun) if and only if the row is not done: the statement does not look |
| SqlRows.ResultAgrees | src/impls/sqlx.rs:424-443 | the result query answers from the task's lifecycle phase |
| SqlBackend.Sql.Apply | src/impls/sqlx.rs:268-475 | puts, retries, discards, finishes and restores on the rows; finishing a missing row writes nothing |
| SqlBackend.Sql.AssignTasks | src/impls/sqlx.rs:288-339 | with anything happening to the rows between any two transactions, as long as the table stays bounded: the loop ends, and its batch and effect are those of the one course its transactions can take |
| SqlBackend.Sql.Pass | src/impls/sqlx.rs:303-338 | one listing and a try per listed id, after which the call has returned or lists twice as many |
| SqlBackend.Sql.ClaimListed | src/impls/sqlx.rs:309-332 | a transaction per listed id until the batch is full, each one turn of the call |
| SqlBackend.Sql.TryClaim | src/impls/mysql.rs:137-175 | one transaction takes the row exactly when it is there, not locked and not begun |
| SqlBackend.WholeCallIsUnique | src/impls/sqlx.rs:288-339 | given what the others do, a call has exactly one course |
| SqlBackend.ScanDoubles | src/impls/sqlx.rs:299-337 | the listing size of pass p is max(limit, 8) times 2 to the p |
| SqlRows.ListingIs | src/impls/mysql.rs:328-348 | a listing holds distinct unstarted due rows of the group, and all of them when it is shorter than asked for |
| SqlClaims.CallIsSound | src/impls/sqlx.rs:299-338 | in every state of a call the listing sizes have doubled from pass to pass, the listing is what its turn's query gave at that turn's clock, the ids recorded as locked are exactly those whose try met a lock, and the call returns only with a full batch or a short listing used up |
| SqlClaims.TurnsTryInOrder | src/impls/sqlx.rs:309-332 | the turns since the last listing have tried its ids, each once and in order |
| SqlClaims.FreeIsClaimed | src/impls/mysql.rs:137-175 | a row that is there, not locked and not begun at the turn that tries it is claimed, with the record it had then and that turn's clock |
| SqlClaims.ClaimedWasFree | src/impls/mysql.rs:137-175 | and each claim was made so: no other row is ever claimed |
| SqlClaims.ListingSaw | src/impls/sqlx.rs:303-307 | the last listing saw the rows as the others had left them at its turn |
| SqlClaims.ShortBatchTriedAll | src/impls/sqlx.rs:334-336 | whatever the others do, a short batch means that every row the last listing could find was tried at a turn since, and that at that turn it was locked, not in the table, begun, or free and so claimed |
| SqlClaims.RepeatedPassWasFull | src/impls/sqlx.rs:334-337 | whatever the others do, a pass is repeated only if at least as many rows were due as it listed |
| SqlClaims.CallIsFair | src/impls/sqlx.rs:309-332 | while others only claim, finish, discard and lock, the claimed rows are distinct and were unstarted and due when listed, with the records returned |
| SqlClaims.ShortBatchLeavesLocked | src/impls/sqlx.rs:334-336 | then the due rows still waiting after a short batch are exactly the unstarted ones among those locked when tried |
| SqlClaims.ShortBatchDrained | src/backend.rs:108-109 | so the documented meaning of a short batch, a drained queue, holds if and only if every row locked when tried is begun or gone |
| SqlClaims.ShortBatchNotDrained | src/backend.rs:108-109 | a concrete call whose empty batch leaves a due row behind |
| SqlClaims.PassesAreBounded | src/impls/sqlx.rs:299-337 | then every listing size that was outgrown is at most the number of unstarted rows at the start |
| SqlClaims.QuietCallIsClaim | src/impls/sqlx.rs:288-339 | undisturbed, a call is one pass and exactly the lifecycle's claim at the first clock reading |
| SqlRace.RunKeepsInv | src/impls/sqlx.rs:288-339 | in every interleaving of any number of claim calls, one transaction at a time, with all other operations: what a call claimed is begun or has moved on, and no two calls share a claim |
| SqlRace.NoRowClaimedTwice | src/impls/sqlx.rs:309-332 | no runnable row is returned by two calls or twice by one |
| SqlRace.RetriedRowIsClaimedEarly | src/impls/sqlx.rs:309-319 | a concrete run in which a row claimed and retried by another worker after the listing is claimed long before its new due time |
| SqlHistory.RowsStayCoherent | src/impls/sqlx.rs:288-422 | however disciplined operations and claim transactions interleave, the rows encode a table: done implies begun |
| SqlHistory.RunRefines | src/impls/sqlx.rs:288-475 | every such run is a history of the lifecycle, so its whole-run theorems hold of SQL too |
| SqlHistory.NoTaskClaimedTwice | src/impls/sqlx.rs:309-332 | so between two claims of one task, by whichever calls, lies a retry, restore or discard of it |
| SqlHistory.ShortBatchLeavesLocked | src/impls/sqlx.rs:334-336 | with puts, retries and restores by others too: after a short batch, the rows due and runnable at the last listing that still wait are exactly those locked when the call tried them |
| SqlHistory.LockedWasLocked | src/impls/mysql.rs:137-150 | and what is recorded as locked was locked at a try of that call |
| SqlCalls.CallIsLoop | src/impls/sqlx.rs:288-339 | each call in such a run is a call of the claim loop under the environment that the other steps form: same listings, tries and claims, and after each of its transactions the loop's rows are the shared ones |
| SqlCalls.LoopReturnsClaimed | src/impls/sqlx.rs:288-339 | so the batch the loop returns there is, in order, what the call of the run has claimed |
| SqlCalls.BatchesApart | src/impls/sqlx.rs:309-332 | and loops run side by side, or one loop, return the same task twice only if a step of the run retried, restored or discarded it |
| SqlHistory.TakenRowIsDue | src/impls/sqlx.rs:303-319 | a taken row is of the group and was due at the listing if and only if the last retry of the task, or put after a discard, since that listing stored such a record; restores make no difference |
| Grid.RoundIsLatestPoint | src/scheduler.rs:402-411 | rounding gives the latest grid point not after the time |
| Grid.WindowIsGrid | src/scheduler.rs:413-429 | from an aligned state a run looks at exactly the grid points since then, in order, ending at the rounded time |
| Grid.WindowsTile | src/scheduler.rs:413-429 | over any clock readings, backward jumps and failed persists included, the windows of the runs that persisted concatenate to every grid point up to the latest such reading, without gap or repeat |
| Schedules.AllIsAccepted | src/scheduler.rs:69-174 | the default set of a field holds every value its constructor accepts and no other |
| Schedules.NewFieldTakesSubsets | src/scheduler.rs:80-95 | a field's constructor takes exactly the subsets of its default set |
| Schedules.FieldsAreOfClock | src/scheduler.rs:163-174 | the default sets are the minutes, hours, days, weekdays and months a clock and a calendar can show, and every fifth second |
| Schedules.DefaultsMatchEveryMinute | src/scheduler.rs:331-355 | so a schedule with only its seconds set matches a point if and only if its second is in the set, in every calendar with 31 days and 12 months at most |
| Schedules.SecondsMatchGrid | src/scheduler.rs:163-169 | all grid points have an accepted local second if and only if the zone offset is a multiple of 5 s, and then every accepted second occurs |
| Schedules.DailyMatchesOnce | src/scheduler.rs:331-355 | a schedule with one accepted second, minute and hour and all days matches one grid point of a local day and no other, exactly if the calendar gives the day a date in range |
| Schedules.FilterConcat | src/scheduler.rs:362-374 | matching a concatenation of windows is concatenating the matches |
| ScheduleIds.NameRoundTrip | src/task.rs:40-43 | scheduler, entry key and point can be read back from the joined name when the scheduler's name has no NUL |
| ScheduleIds.IdsAreInjective | src/task.rs:40-43 | so different schedule points have different names |
| ScheduleIds.NulCollides | src/task.rs:40-43 | a scheduler name with a NUL shares each of its names with another scheduler |
| Planning.PlanFrom | src/scheduler.rs:485-556 | a run from an aligned state skips if nothing is new, else plans for exactly the points since then and persists the rounded time |
| Planning.LastsAre | src/scheduler.rs:498-545 | each entry's slot after a run is its last scheduled point, carried over when it scheduled none, and there are no other slots |
| Planning.ScheduledIsSubmitted | src/scheduler.rs:519-544 | every scheduled point of every entry is submitted |
| Planning.TaskOrigin | src/scheduler.rs:519-544 | and every submitted task is a scheduled point of some entry |
| Planning.LatestHitIsLatest | src/scheduler.rs:243-268 | what OnlyLatest keeps of a window is its latest matching grid point |
| Planning.LatestHitComposes | src/scheduler.rs:243-268 | the latest match of two adjoining windows in turn is that of the joint window |
| Planning.OnlyLatestSlot | src/scheduler.rs:485-556 | an OnlyLatest entry's slot moves to the latest match since the last run |
| Planning.OnlyEarliestSchedules | src/scheduler.rs:233-241 | from an aligned state an OnlyEarliest entry schedules exactly its earliest matching grid point since the last run, its slot becomes that point, and without a match it schedules nothing and carries its slot over |
| Planning.LatestIsKept | src/scheduler.rs:249-257 | OnlyLatest keeps exactly the latest matching grid point of a window, if there is one |
| Planning.FirstRun | src/scheduler.rs:413-419 | without a stored state a run always persists one, whose last run is the latest grid point not after the clock reading; exactly the entries matching that point are submitted and have it in their slots |
| Planning.ZoneOfEntry | src/scheduler.rs:510-514 | the entry's own zone decides whatever the others are, else the scheduler's as if it were the entry's own, else the local one |
| Submission.ScheduledIsStored | src/scheduler.rs:529-553 | after a run that persists, each scheduled point whose id was unknown is a queued row with the entry's group, name, data and lifetime (or seven days), due and scheduled at the point, with retry count 0 |
| Submission.StoredIsScheduled | src/scheduler.rs:529-553 | and each new row is that of a scheduled point of an entry |
| Submission.StoredIsClaimable | src/impls/memory.rs:178-208 | a claim by the entry's group that asks for enough returns it if and only if its time is at or after the point |
| Planning.TwoRunsAreOne | src/scheduler.rs:485-556 | two runs at successive readings leave the state one run at the later reading leaves |
| Planning.CadenceIndependent | src/scheduler.rs:485-556 | with OnlyLatest entries, any non-decreasing sequence of readings leaves what its last reading alone leaves |
| Scheduler.SchedulerService.ScheduleEntries | src/scheduler.rs:485-556 | one call persists exactly the planned state and tasks, or nothing |
| Scheduler.SchedulerService.WalkEntries | src/scheduler.rs:498-545 | the loop over the entries collects exactly the planned slots and tasks |
| Scheduler.SchedulerService.ScheduleEntry | src/scheduler.rs:519-544 | one entry's turn: carry over, then record and submit each scheduled point |
| Spacing.PointsAreApart | src/scheduler.rs:497-526 | over any clock readings, a custom policy that takes at most one point, so long after the last one it is told of, schedules the points of different runs that far apart |
| SchedulerRace.RunKeepsInv | src/backend.rs:308-319 | in every interleaving of any number of processes that read, plan and later persist, stale writes included, the stored state and every pending plan are accounted for by submitted tasks |
| SchedulerRace.LogIsWhatWasCreated | src/scheduler.rs:546-554 | over every run the log lists exactly the tasks some commit has put into the table |
| SchedulerRace.PendingCanCommit | src/backend.rs:308-319 | a planned run can be persisted over any state, however new; its state is then the stored one and all its tasks are known |
| SchedulerRace.EachPointOnce | src/task.rs:35-43 | each point of each entry becomes at most one task |
| SchedulerRace.OnlyPointsBecomeTasks | src/scheduler.rs:485-556 | nothing but matching grid points becomes a task |
| SchedulerRace.PointsKeepApart | src/task.rs:35-43 | no two points share an id, so none hides another |
| SchedulerRace.KeepAllMissesNothing | src/scheduler.rs:485-556 | with a keep-all policy every matching point up to any state ever persisted has been submitted |
| SchedulerRace.OnlyEarliestIsSubmitted | src/scheduler.rs:233-241 | with OnlyEarliest the earliest match up to any state ever persisted has been submitted, and the state names a match no earlier that has been, too |
| SchedulerRace.OnlyLatestIsLatest | src/scheduler.rs:243-268 | with OnlyLatest every state ever persisted names the latest match up to its last run, and that one has been submitted |
| SchedulerRace.FirstRunsSkip | src/scheduler.rs:413-429 | two processes that both find no state submit nothing for the matches between their points: from the earlier one's state a later run with a keep-all policy makes up for them, from the later one's no run does |
| Runner.PermitsKept | src/runner.rs:115-157 | each step keeps free permits, busy handlers and the saturation wait adding up to the limit, and the unspawned claims within the free permits |
| Runner.PermitsAddUp | src/runner.rs:115-157 | in every reachable state the permits add up, handlers never exceed the limit, and spawning never waits |
| Runner.SettleIsDisciplined | src/worker.rs:58-157 | a handler's backend call always targets a task that is staged with the record it was given |
| Runner.RunKeepsInv | src/runner.rs:111-173 | in every reachable state the rows staged for the worker are exactly its unsettled claims, each claimed once |
| Runner.JoinedIsDrained | src/runner.rs:171-173 | when the runner is joined every task it was given was handled and settled by exactly one call, and the rows staged in its name are exactly those of claims that failed after the backend had made them |
| Halting.FlagsAreRequests | src/runner.rs:188-202 | in every reachable state the runner is paused if and only if the last request was to pause, and stopped if and only if one was to stop |
| Halting.PausedClaimsNothing | src/runner.rs:113-118 | over any stretch of a run in which it is paused, a runner that has not passed the check makes no claim |
| Halting.PausedClaimsOnce | src/runner.rs:113-118 | and from wherever the pause caught it at most the one claim under way: two claiming steps are transactions of one call |
| Halting.StoppedClaimsNothing | src/runner.rs:112 | the same for a stop, from then on for ever |
| Halting.StoppedClaimsOnce | src/runner.rs:112 | and at most the one claim under way from wherever the stop caught it |
| Halting.StoppedLoopEnds | src/runner.rs:165-173 | a stopped loop makes at most twice the concurrency and five steps of its own before it drains |
| Halting.LoopIsNeverStuck | src/runner.rs:111-173 | in every reachable state the loop can take a step of its own, unless it drains, and then it is joined as soon as no handler is busy |
| Halting.FreeRunnerClaims | src/runner.rs:120-136 | a runner neither stopped nor paused when it looks claims, at its third step from the top, for exactly the permits then free, or waits if none is |
| Halting.UnstoppedComesBack | src/runner.rs:158-168 | and after a batch, a pause or a wait for a permit it is back at the top unless it was stopped |
| Halting.FreedPermitWakes | src/runner.rs:125-133 | a permit that comes free wakes a saturated loop at once and is there for its next claim |
| Halting.ClaimsOwnGroup | src/worker.rs:163-176 | a claim in one call brings due records of the runner's own group only, and each waits for a handler |
| Shutdown.ClaimIsTaken | src/runner.rs:136-157 | whatever a claim in one call brings, the loop takes all of it |
| Shutdown.TakesCanGoOn | src/impls/sqlx.rs:303-319 | a claim made of transactions goes on while there are permits, and can return with all it took |
| Shutdown.HandlerCanSettle | src/worker.rs:58-157 | in every state that keeps the invariant a running handler can make any of the calls that settle its task |
| Shutdown.DrainingEnds | src/runner.rs:171-173 | from every reachable state in which it drains the runner can be joined |
| Runner.NoneStranded | src/runner.rs:136-143 | where every claim is one call that fails only as a whole there are none of those |
| Stranding.FailedClaimStrands | src/worker.rs:163-176 | for every runner and task, a run in which a claim takes the task and then fails, and the runner is joined with the task staged in its name: a failed claim is an empty batch to the loop |
| Worker.TaskWorker.HandleTask | src/worker.rs:58-157 | one settling call whatever the handler did: success, retry and discard as returned, and failure for a missing executor, a fatal error or a panic, each with its own message |
| Worker.TaskWorker.Assign | src/worker.rs:163-175 | the records of a claim for the worker's group, staged in its name |
| Worker.MemoryRunIsRun | src/runner.rs:111-173 | a runner over the in-memory backend is a run of the fetch-loop model: the backend's own steps meet what it assumes |
| Worker.MemoryDrains | src/runner.rs:171-173 | joined over the in-memory backend, no entry is assigned to the worker |
| Worker.RedisRunIsRun | src/runner.rs:111-173 | the same for the Redis backend's nine structures |
| Worker.RedisDrains | src/runner.rs:171-173 | joined over the Redis backend, the worker's entries in the stage are exactly those of claim scripts whose answer was lost |
| SqlDrain.RunIsRun | src/runner.rs:111-173 | a runner over SQL, its claim a call of several transactions interleaved with all other calls and operations, is a run of the fetch-loop model: what that assumes of a backend is derived |
| SqlDrain.SqlDrains | src/runner.rs:171-173 | joined over SQL, the rows begun in the worker's name and not done are exactly those a failed claim call had taken |
| Detector.PunctualIsNeverPurged | src/service.rs:79-99 | a worker whose refreshes land at least `gap` before its expiry keeps its registration, if purges take at most `gap` from reading the workers to reading the clock |
| Heartbeats.LapsesWhenOutOfDate | src/service.rs:40-57 | a worker lapses if and only if, at some moment, the refresh stored last for it was computed more than 15 s less the margin before |
| Heartbeats.EveryThirdKeepsPunctual | src/service.rs:40-57 | so with a refresh every third of that, of which every other one may be lost, it stays punctual with a third to spare |
| Detector.PunctualLosesWhatChangedHands | src/service.rs:124-148 | with any number of restorers and any misbehaviour of others, a punctual worker loses a task if and only if a sweep restores a row that was listed under another, inactive worker and changed hands since, or another worker settles a task it does not hold |
| Detector.StepKeepsSafe | src/service.rs:124-148 | with one restorer, sweeps that read the workers within `gap` of listing, and calls only by punctual workers for what they hold, each step keeps the joint invariant of heartbeats, purges and sweeps |
| Detector.SafeRestores | src/service.rs:137-142 | under it a restored task is still held by the worker it was listed for, which has lapsed |
| Detector.StoppedIsNotRefreshed | src/service.rs:41-46 | once a worker is stopped and no refresh naming it is under way, its expiry never moves again in any run |
| Detector.DrainingLapses | src/service.rs:41-46 | a later sweep finds such a worker inactive if and only if its registration is gone or its last expiry has passed, whatever it is still running |
| Detector.ListedIsTaken | src/service.rs:137-142 | a row listed under the worker that holds it is requeued if and only if the sweep found the worker inactive |
| Draining.DrainingLosesTask | src/service.rs:41-46 | a concrete run in which a stopped worker that has not settled its task loses it to a sweep |
| LateSweep.FinishedUnlessRevived | src/impls/redis.rs:629-654 | over any run, a finished task that nobody discards, or settles without holding it, stops being finished if and only if a sweep restores it by a backend that does not look (Redis and SQL) |
| LateSweep.SafeSweepsSpareResults | src/service.rs:137-142 | which cannot happen while calls and sweeps are timely |
| LateSweep.FinishedIsClaimedAgain | src/impls/mysql.rs:469-480 | a concrete run in which every worker settles only what it holds, and a sweep that comes late makes a finished task claimable: it is handed out a second time |
| Fleet.CallIsRightful | src/worker.rs:58-157 | a punctual runner's settling call is for a task it holds, with the record it holds |
| Fleet.RunKeepsInv | src/runner.rs:111-173 | in every run of any number of runners with the heartbeat services, where runners call only while punctual and sweeps and purges read quickly: the services are safe and the rows staged for a punctual worker are exactly its unsettled claims |
| Fleet.OnlyLapsedAreRestored | src/service.rs:124-148 | then only tasks of lapsed workers are restored, from the worker they were listed for |
| Fleet.PunctualKeepsItsTasks | src/service.rs:124-148 | a punctual worker keeps its tasks until its own runner settles them |
| Fleet.PunctualDrains | src/runner.rs:171-173 | and when its runner is joined every task it was given was settled by exactly one call, and staged in its name is exactly what failed claims took |
| Fleet.CallsAreDisciplined | src/backend.rs:72-81 | all calls of runners, clients and restorers together form a history of the lifecycle, and a run of it where every claim is one call, the discipline being derived |
| SlowSweep.PunctualLosesToSlowSweep | src/service.rs:124-148 | the sweep's time limit is needed: a concrete run with one restorer and only punctual callers that settle what they hold, in which a punctual worker's task is restored |
| Undisturbed.RefreshRegisters | src/service.rs:40-57 | from any state a refresh can run to its end, and registers the worker for 15 s from now |
| Undisturbed.PurgeRemovesOverdue | src/service.rs:79-99 | from any state a purge can, and removes exactly the registrations that have run out |
| Undisturbed.SweepRestoresAbandoned | src/service.rs:124-148 | from any state a sweep can, and queues exactly those of its listed tasks whose worker is not registered or has run out |
| Undisturbed.HolderCanSettle | src/worker.rs:58-157 | from any state a worker can settle what it holds, stopped or not, and the task leaves the stage |
| Services.Tracker.SetWorkerTtl | src/impls/memory.rs:372-395 | the given workers get the expiry, others keep theirs |
| Services.Tracker.RefreshWorkerLifetime | src/service.rs:40-57 | exactly the runners still alive get the full lifetime |
| Services.Tracker.PurgeDeadWorkers | src/service.rs:79-99 | run alone, it leaves exactly the registrations that have not run out |
| Services.RestoreAbandonedTasks | src/service.rs:124-148 | run alone, it unassigns exactly the listed entries whose worker is not active: an inactive worker still holds an entry afterwards if and only if at least 100 assigned entries were before it by due time and sequence number, so with at most 100 assigned it holds none |
| Services.UnstageAllRequeues | src/service.rs:128-143 | those become queued, every other row and every active worker's task stays as it is |
| Locks.RedisLock.Acquire | src/impls/redis.rs:717-739 | takes the key only if it is free; reports success only if the reply arrived |
| Locks.RedisLock.Release | src/impls/redis.rs:741-760 | gives up the token and deletes the key only if it still holds that token |
| Locks.AtMostOneOwner | src/impls/redis.rs:695-715 | however keys expire, at most one handle's token is the stored one |
| Locks.AcquiresWhatIsFree | src/impls/redis.rs:717-739 | an acquisition makes its handle the owner if and only if nobody had the key and the answer arrived, and changes nothing for the others |
| Locks.OwnershipEndsByExpiryOrRelease | src/impls/redis.rs:695-760 | an owner loses its key by expiry or its own release and by nothing anyone else does |
| Locks.OwnerCanRelease | src/impls/redis.rs:741-760 | an owner can always give its key up, and then nobody has it |
| Locks.ReleaseDeletesOnlyItsOwn | src/impls/redis.rs:741-760 | a release script deletes a key if and only if it carries the token stored there, and never another handle's |
| Locks.AcquisitionsAreApart | src/impls/redis.rs:717-760 | two acquisitions of a key have its expiry or the holder's release between them |
| Locks.MemoryLock.Acquire | src/impls/memory.rs:428-440 | succeeds if this handle holds it already or nobody does |
| Locks.MemoryLock.Release | src/impls/memory.rs:442-452 | frees the target only if this handle holds it |
| Locks.MemoryLock.Drop | src/impls/memory.rs:455-465 | so does dropping the handle |
| Locks.MemoryLocksExclude | src/impls/memory.rs:420-465 | over any run the held set is exactly the targets of held handles, one handle per target |
| Locks.AcquireIffNobodyElseHolds | src/impls/memory.rs:428-440 | so an acquisition succeeds if and only if no other handle holds the target |
| Events.EventStream.Poll | src/impls/sqlx.rs:553-567 | the first decodable row is yielded; the offset moves past every row looked at |
| Events.DeliversInOrder | src/impls/sqlx.rs:549-567 | for events sent at strictly increasing times, in every state the yielded events are exactly the decodable ones between the subscription and the offset, in order |
| Events.YieldsPrefix | src/impls/sqlx.rs:549-567 | so they are a prefix, without repeat or gap, of the decodable events since the subscription |
| Events.QuietPollHasYieldedAll | src/impls/sqlx.rs:549-567 | and all of them once a poll yields nothing |
| Events.PassedRowsAreGone | src/impls/mysql.rs:558-564 | and a row not newer than the offset is never fetched again |
| EventLoss.YieldedUnlessLateOrTied | src/impls/sqlx.rs:549-567 | in every run, whatever the times: a decodable row stored once that the offset has reached was yielded if and only if it was not stored behind the offset and no poll that fetched it yielded another row of its time; until then it is neither yielded nor lost |
| EventLoss.TiedEventIsLost | src/impls/mysql.rs:558-564 | a concrete run in which an event with the time of a yielded one is never delivered |
| EventLoss.LateEventIsLost | src/impls/sqlx.rs:573-582 | a concrete run, with all times different, in which an event is never delivered because its row was stored after a later event had been polled: the sender reads the clock before its insert |

## Left out

- Lifecycle.Disciplined: misuse is covered only where a store keeps its invariant regardless (`MemoryTable.ExecKeepsInv`, `RedisRefinement.ExecKeepsRep`); what a second finish of a task or a restore of a finished one leaves differs between the backends and is no shared property.
- RedisRefinement.Simulates: restores and discards are one step there; `RedisRefinement.RestoreNeedsWaitingTask` and `RedisRefinement.DiscardNeedsFreshLookup` say when their second half may come later.
- RedisBackend.Redis.DiscardTasks: the grouping of ids by queue, which only batches the removals, is a loop over the ids.
- RedisRefinement.ExecKeepsRep: assumes that a record names the group its task is stored under; the code never changes a group, but does not check.
- SqlBackend.Sql.AssignTasks: assumes that the table stays bounded, without which the loop need not end.
- SqlClaims.CallIsFair: others put no row back during the call; what holds when they do is in `SqlClaims.ShortBatchTriedAll` and `SqlHistory`.
- SqlBackend.Sql.Apply: each operation is one statement or transaction, so its own steps are not interleaved; backend errors and rollbacks are not modelled.
- SchedulerRace.EachPointOnce: assumes that no scheduled task is discarded, and policies that are OnlyEarliest, OnlyLatest or keep everything.
- SchedulerRace.RunKeepsInv: starts from a stored, aligned state; a first run looks at one point only, as `Planning.FirstRun` says, and `SchedulerRace.FirstRunsSkip` is about two of them.
- ScheduleIds.IdsAreInjective: the id is the joined name itself; that its UUID v5 hash does not collide is assumed.
- Scheduler.SchedulerService.ScheduleEntries: all tasks of a run share one creation time, given as an input; undecodable stored states and failed reads are not modelled.
- Schedules.DailyMatchesOnce: zone offsets are fixed, days count from the epoch, and day of month, weekday and month are abstract functions of the local day.
- Runner.JoinedIsDrained: assumes that settling calls succeed and that others leave the worker's rows alone, which `Fleet.PunctualDrains` derives for punctual workers; a panic of the claim is a failed claim.
- Worker.TaskWorker.HandleTask: is tied to the in-memory backend; the two fixed error texts are inputs, and the verdict stands for running the executor.
- SqlDrain.SqlDrains: other operations leave the worker's rows alone by assumption; that other calls do is proved.
- Fleet.PunctualKeepsItsTasks: all parties read one clock, and the margin `gap` bounds how long sweeps and purges take between their reads; lapsed workers make no more calls; liveness of restoring (at most 100 rows a sweep, no fairness) is not claimed.
- Services.Tracker.SetWorkerTtl: registrations are a map; the order in which they are listed is not modelled.
- Locks.RedisLock.Acquire: tokens are never reused, as random UUIDs are assumed not to be; the ten-second lifetime is any moment at all. The advisory locks of the SQL databases are not part of this model.
- Locks.MemoryLocksExclude: `destroy_all`, which empties the set under its holders, is left out.
- Events.YieldsPrefix: needs strictly increasing times; the in-memory and Redis event channels are not part of this model.
- Listing queries (`get_queued_tasks`, `get_done_task_ids`, `get_disposable_task_ids`, and the Redis and SQL `get_stage_info`) and the disposal service: reads with easy contracts; the Redis ones can return one entry more than asked for.
- Due comparison: SQL lists tasks due strictly before the clock reading, the other backends at or before it; the model follows each.
- PostgreSQL: same row semantics as MySQL, so one row model stands for both.
- Text formats: serde JSON, UTF-8 conversion of error messages, and pattern characters in ids spliced by the Redis scripts.
- Machine numbers: rounding of floating-point times, times before the epoch in the database, wrap-around of the retry count, overflow of the doubled listing size and of limits cast to 32 bits.
- Kit, Runtime wiring, TaskResult polling, TaskRegistry and JsonTask, migrations, connections and error mapping: thin layers without logic of their own.
