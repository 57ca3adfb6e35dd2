# Verified model of the bridge-watch core algorithms

This project models, in Dafny 4.11, the parts of the repository where the logic is hardest and proves what they
are for. Results are stated over all inputs and, for state machines, over all runs. Two components also have results
over disciplined runs only, and say so where they do: the scheduler's callers lease eligible chunks, report only on
chunks they hold, and do not pause (`SchedulerRuns.Disciplined`); outbox errors fall into the marked stretch of a
dispatch, and only dead-lettered events are put back (`OutboxStatements.Allowed`). `SchedulerRuns.PauseIsSafeIff` and
the module `OutboxAccount` say what happens beyond. Nothing here executes the original program.

| Component | Files | Main results |
|---|---|---|
| Backfill planner (`backend/src/backfill`) | `Graph`, `Sorting`, `Planner`, `TopologicalOrder`, `CriticalPath`, `ChunkPlanner`, `Validation`, `Scheduler`, `SchedulerRuns`, `Capacity`, `Orchestrator` | cycle rejection is exact, the depth-first check and the queue sort agree, the critical path length is the number of rounds needed, scheduler runs are safe, the token bucket keeps its bounds, and a finished plan is reported complete |
| Redaction (`backend/src/privacy`) | `FieldRegistry`, `Redaction`, `RedactionPaths`, `RedactionService` | which rule treats the string at a position and how, which payloads a secret blocks, termination through JSON nested in strings, noninterference, changes are reported, a second pass changes nothing |
| Alert effects (`alertEffectGuard.service.ts`) | `Text`, `EffectGuard` | at most one settlement per effect in every interleaving, by its latest owner; keys are injective |
| Outbox and dead letters (`backend/src/outbox`, `outboxDlqRedrive.job.ts`) | `Outbox`, `OutboxAccount` | failure accounting over whole runs, with the exact drift where the account fails; one queue row per event, redrive delays, the sweep's effect on every row |
| Smaller cores | `AlertCsv`, `AggregationWindow`, `Pagination`, `CircuitBreaker` | CSV round trip, conservation over windows, complete page walks, circuit breaker told by its history |

`Wrappers`, `Arithmetic` and `Sequences` hold shared helpers.

## How to read the model

Code that updates state keeps that form: classes with the source's fields, loops with invariants, and each
method equated with a step function on plain values. The `Steps`, `Statements` and `Runs` modules then reason
about sequences of such steps. For the two delivery protocols a step is one SQL statement or transaction, and a
run interleaves the statements of any number of workers with arbitrary clock readings. Any run of outbox
statements means any in which an upsert writes the row that its own transaction found (`OutboxAccount.Sound`).

Inputs of a call that the platform supplies are parameters: the clock (read once per call), random draws, fresh
row identifiers, the settings read from the environment, and the order in which the database lists rows.
Cryptography, the secret patterns, `JSON.parse` and `JSON.stringify` are function-typed fields of
`Redaction.Context`. `Redaction.Faithful` says what is used of them: parsed text is an object or array whose
strings are strictly shorter than the text, and serialising a value whose key lists an object can have (no
duplicates, enumeration order) and parsing it again gives the value back up to numbers.

Token amounts are thousandths of a token and times are whole milliseconds, so the bucket arithmetic is exact.
Window values, multipliers, jitter and percentages are exact numbers where the source uses floating point.

## Where the code differs from its documentation, and properties that are false

The model follows the code. Where a property fails, the condition under which it holds is proved, with a concrete
failing case where the condition alone does not show one.

- `waitTimeMs` returns a finite wait for requests larger than the bucket, which no wait can satisfy
  (`CapacitySteps.WaitIsLeastIff`).
- `pauseAll` returns chunks that a worker still holds to the eligible pool. Afterwards a chunk can have two holders,
  and a completed chunk can be undone, exactly when some worker held a chunk (`SchedulerRuns.PauseIsSafeIff`,
  `SchedulerRuns.PauseUndoesCompletion`).
- Negative finality buffers shorten what is scheduled: all chunks completed means complete exactly when the buffered
  ranges still cover the tasks (`Orchestrator.AllCompletedIsCompleteIff`).
- The progress percentage reads 100 as soon as at most one chunk in two hundred is unfinished
  (`SchedulerSteps.PercentFullIff`).
- Obfuscating twice changes strings of at most four characters (`Redaction.ObfuscatedTwice`). So a second pass that
  is not blocked leaves a payload alone exactly when no such string was obfuscated, inside JSON texts too
  (`Redaction.SecondPassChangesNothingIff`), and leaves every payload alone exactly when no path is obfuscated
  (`Redaction.SecondPassIsStableIff`), so whenever no rule and no level of the policy asks for it
  (`Redaction.SecondPassIsStable`).
- A JSON text in which nothing is changed is still reported with a `redact` event exactly when it is not spelled the
  way `JSON.stringify` spells it (`Redaction.SpellingIsReportedIff`).
- A `*` segment before a `**` in a path pattern matches only a segment written `*`
  (`FieldRegistry.StarBeforeDoubleStar`, `FieldRegistry.StarIsLiteral`).
- `claimEffect` says that a claimed row did not exist before; a worker that claims its own pending row again is
  also told that it owns it (`EffectStatements.ClaimedIsLatestOwner`).
- `redriveDeadLetter` has no status guard, and neither has the update of `retryEvent`. Putting an event back by either
  keeps the failure account of everything that can follow exactly when, at that write, the event is dead-lettered, or
  no job holds it and none of its retry budget is used; two jobs can come to dispatch it at once exactly when a job
  holds it (`OutboxAccount.PutBackIff`). Looking at the status first, as the sweep and `retryEvent` do, does not make
  the write safe: select and update are two statements (`adminApi.ts:249-275`), and the event can move on between
  them. An event put back by one administrator that has failed once more since loses that failure to the second one's
  update (`OutboxAccount.LateRequeueForgets`), or to a redrive (`OutboxAccount.LateRedriveForgets`,
  `OutboxAccount.HeldRedriveForgets`). The bulk redrive (`adminApi.ts:151-172`) does not look at all.
- The dispatcher's catch calls `markForRetry`, which has no status guard, for errors outside the marked stretch too: a
  failed select, or a failed commit after a skip or a delivery (`eventDispatcher.ts:205-217`). After such an error the
  failure account is kept exactly for delivered events and for those abandoned in processing. It fails for pending, held
  and dead-lettered events, and exactly those can then be dispatched twice at once (`OutboxAccount.OutsideErrorIff`).
  One such error takes a dead-lettered event with retry count 4 and a queue row with error count 5 to error count 10
  (`OutboxAccount.OutsideErrorCountsTwice`). Over any run whatever the account moves by the recorded failures plus a
  drift that each statement determines (`OutboxAccount.AccountOverAnyRun`), so it is right exactly when the drift
  cancels out (`OutboxAccount.AccountIsFailuresIff`).
- A delivered event, or one whose dispatch job died while processing, leaves its status exactly when it is put back or
  when a failed dispatch of it is recorded (`OutboxAccount.LeavesIff`); nothing else recovers an abandoned event or
  undoes a delivery.
- The sweep computes the delay from the row as listed, so it can redrive a row before the backoff that the row has by
  then. In any run this takes a failure recorded since the listing (`Outbox.EarlyNeedsFailure`). If errors fall in the
  marked stretch only, it is possible exactly when the event was pending, or held by a job, when the row was listed
  (`Outbox.RedriveCanBeEarlyIff`), and such a moment is reachable (`Outbox.EarlyRedriveIsReachable`). With an error
  outside that stretch it is possible from every state, a dead-lettered event nobody holds included
  (`Outbox.OutsideErrorMakesEarly`).
- A sliding window step longer than the window size loses points (`AggregationWindow.NothingIsMissedIff`).
- Page numbers below one are not rejected: each fetches page 1 again. Without limits the list comes out exactly when
  the first page is the last (`Pagination.LowPageIsTheListIff`); under limits, for lists without repeats, the walk
  agrees with one from page 1 exactly then or when the limits allow no second page (`Pagination.LowPageIsFirstIff`).
- An `offset` option is sent unchanged with every page, so a fetcher that honours offsets answers every page alike.
  From any page and under any limits, a walk that ends returns what it should, the list from the offset on cut to the
  pages and items allowed, exactly when it yields as many items as are due and those repeat from page to page
  (`Pagination.LimitedOffsetWalkIff`). Without limits, and with a total: exactly when the offset is past the end, or
  the walk asks for one page and no more than that is left, or it asks for several and the rest of the list is that
  many full pages, all alike (`Pagination.OffsetWalkIff`); from page 1 that is when the list fits one page, or the
  offset is past its end, or the offset is zero and the list is its first page over and over
  (`Pagination.FirstPageOffsetWalkIff`). Against bare arrays the walk ends exactly when less than a page remains at
  the offset, and then returns it; otherwise `collectAllPages` without limits never ends (`Pagination.WalkEndsIff`,
  `Pagination.FullPageRepeats`).
- `explainPlan` prints the number of tasks as the critical path. That is its length exactly when one dependency chain
  runs through all tasks (`CriticalPath.TaskCountIsLengthIff`).

## Model

| member | source | states |
|---|---|---|
| `Planner.IndexTasks` | backend/src/backfill/planner.ts:13-24 | the task map holds every task in order, and an error names a repeated id exactly when there is one |
| `Planner.LinkTasks` | backend/src/backfill/planner.ts:26-36 | both edge maps hold exactly the dependencies read, and an error names a dependency that no task has |
| `Planner.GrayHitIsCycle` | backend/src/backfill/planner.ts:133-167 | meeting a grey node closes a real cycle along the stack |
| `Planner.Visit` | backend/src/backfill/planner.ts:133-167 | the three-colour search from a node keeps the colouring invariant, or reports nodes on a cycle |
| `Planner.ValidateAcyclic` | backend/src/backfill/planner.ts:133-167 | the search finds nothing exactly when the graph has no cycle |
| `Planner.BuildDAG` | backend/src/backfill/planner.ts:8-41 | succeeds exactly for unique ids, known dependencies and no cycle, and then represents exactly the dependencies in both directions |
| `TopologicalOrder.Relax` | backend/src/backfill/planner.ts:63-67 | the inner loop lowers the degree of each dependent and queues exactly those that reach zero |
| `TopologicalOrder.UnplacedIsCyclic` | backend/src/backfill/planner.ts:47-75 | tasks the queue never reaches lie above a cycle |
| `TopologicalOrder.PlacedIsAcyclic` | backend/src/backfill/planner.ts:47-75 | an order with all dependencies first rules out every cycle |
| `TopologicalOrder.TopologicalSort` | backend/src/backfill/planner.ts:47-75 | for any record with inverse edge maps: a duplicate-free permutation with dependencies first, and failure exactly on a cycle |
| `CriticalPath.GetReadyTasks` | backend/src/backfill/planner.ts:80-98 | exactly the unfinished tasks with finished dependencies, as many as there are, by falling priority and in map order among equals |
| `CriticalPath.ReadyIff` | backend/src/backfill/planner.ts:80-98 | for any completed set, a task is ready exactly when it is open and every edge into it comes from a completed task |
| `CriticalPath.Depth` | backend/src/backfill/planner.ts:106-123 | the memoised search terminates on acyclic graphs and returns the length of a longest chain from a node |
| `CriticalPath.CriticalPathLength` | backend/src/backfill/planner.ts:103-131 | no dependency chain is longer than the result and one attains it |
| `CriticalPath.TaskCountIsLengthIff` | backend/src/backfill/orchestrator.ts:96-108 | the task count printed as the critical path is its length exactly when one chain runs through all tasks |
| `CriticalPath.OpenEndsLongChain` | backend/src/backfill/planner.ts:80-131 | a task still open after k rounds ends a chain of more than k tasks |
| `CriticalPath.FinishedEndsShortChain` | backend/src/backfill/planner.ts:80-131 | a chain that ends in a finished task is no longer than the rounds played |
| `CriticalPath.RoundsNeeded` | backend/src/backfill/planner.ts:80-131 | completing every ready task per round finishes all tasks after k rounds exactly when k is at least the critical path length |
| `CriticalPath.PlayRounds` | backend/src/backfill/planner.ts:80-131 | asking for the ready tasks and completing them, until none is ready, ends after exactly as many rounds as the critical path is long, each round holding exactly the tasks that are ready then |
| `CriticalPath.DependenciesFinishFirst` | backend/src/backfill/planner.ts:80-98 | no round completes a task before its dependencies |
| `CriticalPath.SomethingIsReady` | backend/src/backfill/planner.ts:80-98 | while a task is open the ready set is not empty |
| `ChunkPlanner.PlanTaskChunks` | backend/src/backfill/chunkPlanner.ts:19-50 | the chunks tile the task's range end to end with only the last one shorter; errors exactly for a bad size or an empty range |
| `ChunkPlanner.EachPointInOneChunk` | backend/src/backfill/chunkPlanner.ts:19-50 | every point of the range lies in exactly one chunk and no other point in any |
| `ChunkPlanner.ChunksInOrder` | backend/src/backfill/chunkPlanner.ts:19-50 | earlier chunks end before later ones start |
| `ChunkPlanner.PlanAllTaskChunks` | backend/src/backfill/chunkPlanner.ts:57-75 | every task gets the tiling of its range extended by its finality requirement times the multiplier, rounded up, in order; succeeds exactly when no such range is empty, and an error names a task whose range is |
| `Validation.FindMissingRanges` | backend/src/backfill/validation.ts:41-67 | the loops return the gaps of each expected range among the sorted completed ranges |
| `Validation.GapsAreOrdered` | backend/src/backfill/validation.ts:41-67 | the gaps of one range are non-empty, ordered and disjoint, within the range |
| `Validation.GapsHoldUncovered` | backend/src/backfill/validation.ts:41-67 | a point of a range is in a gap exactly when no completed range holds it |
| `Validation.MissingHoldUncovered` | backend/src/backfill/validation.ts:41-67 | the missing ranges hold exactly the expected points that are not completed |
| `Validation.TotalLengthCountsPoints` | backend/src/backfill/validation.ts:21-28 | for disjoint ranges the summed lengths are the number of points |
| `Validation.MissingPlusCompleted` | backend/src/backfill/validation.ts:6-67 | missing length plus completed length is the expected length for disjoint ranges with nothing completed outside |
| `Validation.ValidateCompleteness` | backend/src/backfill/validation.ts:6-39 | the report holds exactly the uncovered points and is complete exactly when there are none |
| `Scheduler.LeaseManager.AcquireLease` | backend/src/backfill/scheduler.ts:13-28 | grants exactly when no live lease exists and changes nothing else |
| `Scheduler.LeaseManager.IsLeased` | backend/src/backfill/scheduler.ts:35-46 | tells whether a live lease exists and drops an expired one |
| `Scheduler.LeaseManager.GetExpiredLeases` | backend/src/backfill/scheduler.ts:48-60 | returns exactly the expired keys and keeps exactly the live leases |
| `Scheduler.BackfillScheduler.constructor` | backend/src/backfill/scheduler.ts:68-76 | files every chunk under its key with its status, with no leases |
| `SchedulerSteps.ScanPicksEligible` | backend/src/backfill/scheduler.ts:86-104 | the scan picks only eligible chunks, at most the limit, and all of them when it stays below the limit |
| `Scheduler.BackfillScheduler.GetEligibleChunks` | backend/src/backfill/scheduler.ts:86-104 | waiting chunks without a live lease, at most the limit and all of them below it; only expired leases are dropped |
| `Scheduler.BackfillScheduler.LeaseChunk` | backend/src/backfill/scheduler.ts:109-118 | leases exactly when no live lease exists; the status of the chunk object is not written |
| `Scheduler.BackfillScheduler.MarkRunning` | backend/src/backfill/scheduler.ts:123-126 | changes the status map only |
| `Scheduler.BackfillScheduler.MarkCompleted` | backend/src/backfill/scheduler.ts:131-138 | completes the chunk in map and object and releases its lease |
| `Scheduler.BackfillScheduler.MarkFailed` | backend/src/backfill/scheduler.ts:143-156 | counts the attempt, releases the lease, and fails the chunk for good or makes it pending and eligible at any clock |
| `Scheduler.BackfillScheduler.PauseAll` | backend/src/backfill/scheduler.ts:161-171 | pauses exactly the leased and running chunks and releases exactly their leases |
| `Scheduler.BackfillScheduler.ResumeAll` | backend/src/backfill/scheduler.ts:176-185 | readies exactly the paused chunks |
| `Scheduler.BackfillScheduler.GetProgress` | backend/src/backfill/scheduler.ts:190-237 | the counters are the numbers of chunks by status and partition the chunks; the percentage is rounded to nearest, 100 exactly when at most one in two hundred is unfinished |
| `SchedulerSteps.TallyCounts` | backend/src/backfill/scheduler.ts:199-225 | each counter is the number of chunks in its group |
| `SchedulerSteps.TallyPartitions` | backend/src/backfill/scheduler.ts:199-236 | every chunk is counted once |
| `SchedulerSteps.PercentFullIff` | backend/src/backfill/scheduler.ts:235 | when rounding reaches 100 |
| `Scheduler.BackfillScheduler.CleanupExpiredLeases` | backend/src/backfill/scheduler.ts:242-244 | drops expired leases and touches no status |
| `SchedulerRuns.StepKeepsInv` | backend/src/backfill/scheduler.ts:86-156 | every disciplined action keeps holders, attempts, grants and statuses consistent |
| `SchedulerRuns.RunsAreSafe` | backend/src/backfill/scheduler.ts:10-156 | in every disciplined run: never two holders, attempts within budget with equality exactly for failed chunks, objects agree with the map |
| `SchedulerRuns.FinalStatusStays` | backend/src/backfill/scheduler.ts:131-156 | completed and failed chunks never change again |
| `SchedulerRuns.PendingIsEligible` | backend/src/backfill/scheduler.ts:86-156 | in every disciplined run a lease entry belongs to a leased or running chunk, every pending chunk is eligible at any clock, and finished chunks hold no lease |
| `SchedulerRuns.TotalLeasesBounded` | backend/src/backfill/scheduler.ts:109-156 | all leases granted stay within the summed retry budgets |
| `SchedulerRuns.PauseIsSafeIff` | backend/src/backfill/scheduler.ts:161-171 | after a pause some disciplined run gives a chunk two holders, and some undoes a completion, exactly when a worker held a chunk |
| `SchedulerRuns.PauseUndoesCompletion` | backend/src/backfill/scheduler.ts:161-171 | a run in which pausing leads to two holders and a completed chunk becomes pending again |
| `CapacityReservations.CapacityReservation.Create` | backend/src/backfill/capacityReservation.ts:12-31 | fails exactly when more is reserved than exists; starts with a full bucket |
| `CapacityReservations.CapacityReservation.TryAcquire` | backend/src/backfill/capacityReservation.ts:37-47 | grants exactly when the refilled bucket holds enough, and then takes it |
| `CapacityReservations.CapacityReservation.Release` | backend/src/backfill/capacityReservation.ts:52-61 | gives tokens back up to the capacity and lowers the usage to no less than zero |
| `CapacityReservations.CapacityReservation.AvailableTokens` | backend/src/backfill/capacityReservation.ts:74-77 | the whole tokens after a refill, rounded down |
| `CapacityReservations.CapacityReservation.WaitTimeMs` | backend/src/backfill/capacityReservation.ts:83-91 | the wait by the deficit and the rate, infinite without a rate |
| `CapacitySteps.RefillLater` | backend/src/backfill/capacityReservation.ts:93-103 | two refills in a row add up to one |
| `CapacitySteps.WaitIsLeastIff` | backend/src/backfill/capacityReservation.ts:83-91 | the wait is the least one after which the request succeeds exactly for requests within the capacity, or without a rate |
| `CapacitySteps.GrantsAreCovered` | backend/src/backfill/capacityReservation.ts:37-103 | over any run with a forward clock tokens stay between zero and the capacity and grants are covered by refills and releases |
| `CapacitySteps.GrantsInInterval` | backend/src/backfill/capacityReservation.ts:37-103 | grants in d milliseconds are at most capacity plus d times the rate plus releases |
| `Orchestrator.KeysDistinct` | backend/src/backfill/orchestrator.ts:55-68 | chunks of a plan never share a scheduler key |
| `Orchestrator.ListEdges` | backend/src/backfill/orchestrator.ts:79-81 | the listed edges are exactly the dependencies |
| `Orchestrator.PlanTasks` | backend/src/backfill/orchestrator.ts:38-53 | graph, order and chunk plans exist exactly for accepted tasks whose ranges, extended by the configured multiplier or by one, are not empty; the plans tile these ranges |
| `Orchestrator.CreateScheduler` | backend/src/backfill/orchestrator.ts:55-70 | the scheduler starts with all planned chunks pending |
| `Orchestrator.ScheduledInOrder` | backend/src/backfill/orchestrator.ts:55-68 | the chunk list is exactly the planned chunks, task by task in execution order and each from first to last |
| `Orchestrator.CreateBackfillPlan` | backend/src/backfill/orchestrator.ts:34-94 | succeeds exactly for such tasks and a reservation within the rate; the plans tile the extended ranges, the scheduler holds one pending chunk with three attempts per planned chunk in execution order, and an error names the first check that fails |
| `Orchestrator.CheckCompleteness` | backend/src/backfill/orchestrator.ts:136-147 | reports the task points that no completed chunk holds |
| `Orchestrator.AllCompletedIsComplete` | backend/src/backfill/orchestrator.ts:34-147 | with buffers that shorten no range, all chunks completed means complete |
| `Orchestrator.AllCompletedIsCompleteIff` | backend/src/backfill/orchestrator.ts:34-147 | for any buffers all chunks completed means complete exactly when the buffered ranges cover the tasks |
| `Orchestrator.MissingIsUnfinished` | backend/src/backfill/orchestrator.ts:34-147 | with zero buffers and disjoint tasks the missing ranges hold exactly the points of unfinished chunks |
| `Orchestrator.CompleteIffAllCompleted` | backend/src/backfill/orchestrator.ts:34-147 | with zero buffers and disjoint tasks complete is reported exactly when all chunks are completed |
| `Orchestrator.PlanStartsFresh` | backend/src/backfill/orchestrator.ts:55-70 | a new plan is a fresh start for the scheduler's runs |
| `Orchestrator.FinishedRunIsComplete` | backend/src/backfill/orchestrator.ts:34-147 | from task list to report: after any disciplined run that completes all chunks the report is complete |
| `FieldRegistry.MatchPath` | backend/src/privacy/fieldRegistry.ts:33-58 | by segments: `**` ends a prefix that is taken literally, otherwise equally many segments with `*` for any one |
| `FieldRegistry.SegmentsOfJoin` | backend/src/privacy/fieldRegistry.ts:34-35 | splitting undoes joining non-empty dot-free segments with dots |
| `FieldRegistry.SegmentsAppend` | backend/src/privacy/fieldRegistry.ts:34-35 | a dot separates whatever stands on either side, and empty segments do not count |
| `FieldRegistry.ClassifyPath` | backend/src/privacy/fieldRegistry.ts:184-193 | the loop computes the classification |
| `FieldRegistry.ClassifyIsMostSpecific` | backend/src/privacy/fieldRegistry.ts:184-193 | the rule found matches, none matching is longer, it is the first of its length, and none is found only without a match |
| `FieldRegistry.StarBeforeDoubleStar` | backend/src/privacy/fieldRegistry.ts:36-48 | before a double star a star matches only a segment written as a star |
| `FieldRegistry.StarIsLiteral` | backend/src/privacy/fieldRegistry.ts:36-48 | a pattern and a path on which that shows |
| `RedactionService.WalkInto` | backend/src/privacy/redaction.service.ts:235-264 | the walk over the shared log returns the pure walk's value and appends its events and secrets |
| `RedactionService.WalkItemsInto` | backend/src/privacy/redaction.service.ts:252-254 | the same for array elements, in order |
| `RedactionService.WalkFieldsInto` | backend/src/privacy/redaction.service.ts:255-262 | the same for object fields, in order |
| `RedactionService.HandleStringInto` | backend/src/privacy/redaction.service.ts:266-330 | the same for one string |
| `RedactionService.RedactPayload` | backend/src/privacy/redaction.service.ts:147-188 | the outcome of `redact`: blocked with its paths, or the output with its decision |
| `RedactionPaths.PlainKeysAreSegments` | backend/src/privacy/redaction.service.ts:252-259 | under non-empty dot-free keys the segments of a position are its keys, with array indices written onto them and `~` for a JSON text |
| `RedactionPaths.KeysAreSegments` | backend/src/privacy/redaction.service.ts:255-259 | under keys k1 to kn alone they are k1 to kn |
| `RedactionPaths.GovernedIsTreated` | backend/src/privacy/redaction.service.ts:266-304 | at every position, in JSON texts too, that no allow-list entry covers, the string becomes what the most specific covering rule asks: a pseudonym at a pseudonymised level, else by the action of the rule, else of its level, else the marker; and that is reported |
| `RedactionPaths.UngovernedIsKept` | backend/src/privacy/redaction.service.ts:306-330 | an allow-listed string, or one that no rule covers, is kept unless it is a JSON text, which stays one |
| `RedactionPaths.ShapeIsKept` | backend/src/privacy/redaction.service.ts:235-264 | redaction keeps positions, keys, lengths and all leaves that are not strings |
| `RedactionPaths.EventsAreTrue` | backend/src/privacy/redaction.service.ts:266-330 | every reported event names a string that a rule treated, with its action and level, or a JSON text that was rewritten; kept strings are not reported |
| `RedactionPaths.SecretsAreFoundIff` | backend/src/privacy/redaction.service.ts:147-188 | a secret is detected exactly when one stands, at any depth, where no rule treats it and the allow list does not name its path; a blocking policy blocks exactly those payloads and names only paths to secrets |
| `Redaction.Noninterference` | backend/src/privacy/redaction.service.ts:147-188 | payloads that differ only in redacted strings, inside JSON texts too, give the same outcome, events and decision |
| `Redaction.WalkHides` | backend/src/privacy/redaction.service.ts:235-330 | the walk itself cannot tell such payloads apart |
| `Redaction.TextsAreHiddenIff` | backend/src/privacy/redaction.service.ts:306-330 | two JSON texts with the same look inside are handled alike exactly when they are equal, or agree on being secret and respelled and block nothing |
| `Redaction.ChangeIsReported` | backend/src/privacy/redaction.service.ts:147-188 | output that differs from the input is marked as modified |
| `Redaction.SpellingIsReportedIff` | backend/src/privacy/redaction.service.ts:318-329 | a text in which nothing changes is reported exactly when it is spelled differently |
| `Redaction.TreatedTwice` | backend/src/privacy/pseudonymizer.ts:39-53 | markers and pseudonyms are left alone by the action that made them |
| `Redaction.ObfuscatedTwice` | backend/src/privacy/redaction.service.ts:359-364 | obfuscating twice changes nothing exactly for strings longer than four |
| `Redaction.RenumberedStaysFixed` | backend/src/privacy/redaction.service.ts:320-328 | values that a walk leaves alone stay so after a round trip through text |
| `Redaction.WalkedIsFixed` | backend/src/privacy/redaction.service.ts:235-330 | without obfuscation the walk leaves its own output alone |
| `Redaction.WalkedIsFixedIff` | backend/src/privacy/redaction.service.ts:235-330 | unblocked, the walk leaves its own output alone exactly when no string of at most four characters was obfuscated, nested ones included |
| `Redaction.SecondPassChangesNothingIff` | backend/src/privacy/redaction.service.ts:147-188 | the same for a whole second pass over a payload |
| `Redaction.SecondPassIsStableIff` | backend/src/privacy/redaction.service.ts:147-188 | every payload is safe from an unblocked second pass exactly when no path is obfuscated |
| `Redaction.SecondPassIsStable` | backend/src/privacy/redaction.service.ts:147-188 | which holds when no rule and no level of the policy asks for obfuscation |
| `EffectStatements.EffectKeyInjective` | backend/src/services/alertEffectGuard.service.ts:79-84 | effects share a key exactly when they are the same effect |
| `EffectStatements.SuppressionKeyIsApart` | backend/src/services/alertEffectGuard.service.ts:307-336 | an audit row never has the key of an effect |
| `EffectGuard.AlertEffectGuard.ClaimEffect` | backend/src/services/alertEffectGuard.service.ts:135-192 | inserts a pending row that expires the lease after the clock reading, unless the key is present, and answers whether the caller owns the pending row |
| `EffectGuard.AlertEffectGuard.CommitEffect` | backend/src/services/alertEffectGuard.service.ts:201-229 | settles exactly a pending row of the caller |
| `EffectGuard.AlertEffectGuard.MarkEffectAmbiguous` | backend/src/services/alertEffectGuard.service.ts:239-264 | the same with the ambiguous status and a reason |
| `EffectGuard.AlertEffectGuard.ReclaimExpiredLeases` | backend/src/services/alertEffectGuard.service.ts:275-298 | takes over exactly the pending rows that expired before the clock reading, leases them anew from it and counts them |
| `EffectGuard.AlertEffectGuard.RecordDuplicateSuppression` | backend/src/services/alertEffectGuard.service.ts:307-336 | adds an audit row and touches no other |
| `EffectStatements.HistoryIsTold` | backend/src/services/alertEffectGuard.service.ts:135-336 | in every interleaving the row tells its history: owner, attempts as one plus takeovers, settlements |
| `EffectStatements.AtMostOneSettlement` | backend/src/services/alertEffectGuard.service.ts:201-264 | at most one commit or ambiguity mark per effect returns true |
| `EffectStatements.SettledStays` | backend/src/services/alertEffectGuard.service.ts:201-298 | delivered and ambiguous rows never change again |
| `EffectStatements.SettlesForLatestOwner` | backend/src/services/alertEffectGuard.service.ts:201-264 | a settlement succeeds exactly for the latest owner of an unsettled effect |
| `EffectStatements.ClaimedIsLatestOwner` | backend/src/services/alertEffectGuard.service.ts:135-192 | a claim answers true exactly for the latest owner while nothing is settled |
| `EffectStatements.LeaseShieldsIff` | backend/src/services/alertEffectGuard.service.ts:275-298 | whatever statements follow, a leased effect is taken over exactly when a sweep reads a clock past the expiry before it is settled; until then owner, expiry and attempts stay |
| `EffectStatements.ClaimShieldsIff` | backend/src/services/alertEffectGuard.service.ts:135-192 | a claim at `now` of an effect without a row keeps it, whatever follows, exactly unless a sweep reads a clock past `now` plus the lease before it is settled |
| `EffectStatements.ReclaimShieldsIff` | backend/src/services/alertEffectGuard.service.ts:275-298 | the same for a row that a sweep takes over at `now` |
| `OutboxStatements.RunsKeepInv` | backend/src/outbox/eventProducer.ts:169-289 | in every disciplined run: one queue row per event, one for every dead-lettered event, each dispatching job the only holder of its event |
| `OutboxStatements.RunKeepsBalance` | backend/src/outbox/eventProducer.ts:192-289 | over any disciplined run failures so far are the queue's error count plus the retry count not yet moved there, until a delivered event's row is dropped |
| `OutboxStatements.FailuresAreAccounted` | backend/src/outbox/eventProducer.ts:192-289 | the same for disciplined runs from an empty outbox |
| `OutboxAccount.RunsKeepTables` | backend/src/outbox/eventProducer.ts:192-289 | in any run, whatever errors and administrator writes come: at most one queue row per event and one for every dead-lettered event, as long as no dead letter is dropped |
| `OutboxAccount.AccountOverAnyRun` | backend/src/outbox/eventProducer.ts:169-289 | over any run the account moves by the recorded failures plus the drift of its statements |
| `OutboxAccount.AccountIsFailuresIff` | backend/src/outbox/eventProducer.ts:169-289 | from an empty outbox the account is the number of recorded failures exactly when the drift cancels out |
| `OutboxAccount.PutBackIff` | backend/src/outbox/adminApi.ts:151-290 | after an event is put back, by redrive or retry, every disciplined continuation keeps the account exactly when it was dead-lettered, or unheld with an unused budget; two jobs can dispatch it at once exactly when it was held |
| `OutboxAccount.LateRedriveForgets` | backend/src/outbox/eventProducer.ts:387-409 | a redrive after an administrator's retry that loses a failure |
| `OutboxAccount.HeldRedriveForgets` | backend/src/outbox/eventProducer.ts:387-409 | a redrive beside a job that still holds the event that loses a failure |
| `OutboxAccount.LateRequeueForgets` | backend/src/outbox/adminApi.ts:249-275 | a retry that looked first and still loses a failure |
| `OutboxAccount.OutsideErrorIff` | backend/src/outbox/eventDispatcher.ts:205-217 | after an error outside the marked stretch every disciplined continuation keeps the account, and none dispatches the event twice at once, exactly when it is delivered, or abandoned in processing |
| `OutboxAccount.OutsideErrorCountsTwice` | backend/src/outbox/eventDispatcher.ts:205-217 | one such failure takes a dead letter's error count from 5 to 10 |
| `OutboxAccount.LeavesIff` | backend/src/outbox/eventProducer.ts:180-231 | over any run at all, a delivered or abandoned event leaves its status exactly when it is put back or a failed dispatch of it is recorded |
| `OutboxAccount.DeadLetterChangesIff` | backend/src/outbox/eventProducer.ts:235-289 | over any run a dead-lettered event that no job holds, or its row, changes exactly when it is put back, a failed dispatch of it is recorded, or the row is dropped |
| `Outbox.OutboxProducer.MarkProcessing` | backend/src/outbox/eventProducer.ts:169-175 | takes exactly a pending event |
| `Outbox.OutboxProducer.MarkDelivered` | backend/src/outbox/eventProducer.ts:180-187 | delivers the event whatever its status |
| `Outbox.OutboxProducer.MarkForRetry` | backend/src/outbox/eventProducer.ts:192-224 | schedules the next retry two seconds after the first failure, doubling up to a quarter of an hour, or dead-letters once the budget is spent; fails exactly for a missing event |
| `OutboxStatements.BackoffDoubles` | backend/src/outbox/eventProducer.ts:205-209 | the first retry delays, the doubling and the cap |
| `Outbox.OutboxProducer.MoveToDeadLetter` | backend/src/outbox/eventProducer.ts:235-289 | upserts the event's one queue row, adding the error count, and marks the event |
| `Outbox.OutboxProducer.RedriveDeadLetter` | backend/src/outbox/eventProducer.ts:387-415 | puts the event back with a fresh budget and moves the last attempt; false exactly for a missing row |
| `Outbox.OutboxProducer.ReleaseDeadLetter` | backend/src/outbox/eventProducer.ts:422-424 | drops that row only |
| `Outbox.OutboxProducer.GetOutboxStatusForDeadLetter` | backend/src/outbox/eventProducer.ts:429-436 | the status of the event of an existing row |
| `Outbox.DispatchRunEffect` | backend/src/outbox/eventDispatcher.ts:157-218 | what the statements of one job do for a fault before marking, in the handler or after delivery, when they keep to the discipline, and how many failures they record |
| `Outbox.ProcessDispatchJob` | backend/src/outbox/eventDispatcher.ts:157-218 | an uninterrupted dispatch does what those statements do, for every fault and status |
| `Outbox.RedriveDeadLetterEvents` | backend/src/outbox/adminApi.ts:151-172 | the bulk redrive puts back every listed row that exists, whatever its event's status, and counts them |
| `Outbox.RetryEvent` | backend/src/outbox/adminApi.ts:244-290 | uninterrupted, it requeues exactly failed and dead-lettered events |
| `Outbox.DelayIsNearBackoff` | backend/src/jobs/outboxDlqRedrive.job.ts:24-28 | the delay is within a fifth of the capped backoff, up to rounding |
| `Outbox.DelayIs` | backend/src/jobs/outboxDlqRedrive.job.ts:24-28 | the delay is the capped backoff scaled linearly by the draw between four and six fifths, to the nearest millisecond |
| `Outbox.BackoffGrows` | backend/src/jobs/outboxDlqRedrive.job.ts:24-28 | more recorded failures never shorten the backoff |
| `Outbox.RedriveWaits` | backend/src/jobs/outboxDlqRedrive.job.ts:59-77 | no redrive before four fifths of the backoff, as listed, have passed since the last attempt |
| `Outbox.DueStaysDue` | backend/src/jobs/outboxDlqRedrive.job.ts:70-78 | a waiting row is redriven exactly from its due time on, and with the same draw at every later clock |
| `Outbox.EarlyNeedsFailure` | backend/src/jobs/outboxDlqRedrive.job.ts:49-79 | over any run, a redrive before the row's current backoff follows a failure recorded since the listing |
| `Outbox.OutsideErrorMakesEarly` | backend/src/jobs/outboxDlqRedrive.job.ts:49-79 | from every state an error outside the marked stretch makes such a redrive possible |
| `Outbox.RedriveCanBeEarlyIff` | backend/src/jobs/outboxDlqRedrive.job.ts:49-79 | over disciplined runs, with errors in the marked stretch only, it is possible exactly when the event was pending or held when listed |
| `Outbox.EarlyRedriveIsReachable` | backend/src/jobs/outboxDlqRedrive.job.ts:49-79 | that moment is reachable from an empty outbox |
| `Outbox.SweepOne` | backend/src/jobs/outboxDlqRedrive.job.ts:56-78 | drops the row of a delivered event, leaves those being worked on, and redrives any other exactly from its due time on, at the latest six fifths of the backoff after its last attempt; no other row is touched |
| `Outbox.RunOutboxDlqRedriveJob` | backend/src/jobs/outboxDlqRedrive.job.ts:49-87 | every listed row is dropped, redriven or left by that rule; the counters are the numbers of delivered and of due rows, and rows not listed are untouched |
| `AlertCsv.FieldRoundTrip` | backend/src/services/alertHistorySearch.service.ts:105-108 | the decoder undoes the escaping of any string |
| `AlertCsv.FileRoundTrip` | backend/src/services/alertHistorySearch.service.ts:111-115 | the decoder recovers any list of records of two or more fields |
| `AlertCsv.CsvRoundTrip` | backend/src/services/alertHistorySearch.service.ts:94-115 | a decoder following section 2 of RFC 4180, with LF breaks, recovers header and all fields |
| `AlertCsv.CsvHoldsTheRows` | backend/src/services/alertHistorySearch.service.ts:94-115 | read back: eight column names, then per row its value under each name, empty for null or missing |
| `AlertCsv.CsvInjective` | backend/src/services/alertHistorySearch.service.ts:94-115 | equal exports have equal fields in all eight columns |
| `AggregationWindow.WindowStart` | backend/src/services/aggregationWindow.ts:67-71 | the aligned window that holds the timestamp |
| `AggregationWindow.WindowStartFor` | backend/src/services/aggregationWindow.ts:46-71 | the same after validation, with its errors |
| `AggregationWindow.Aggregate` | backend/src/services/aggregationWindow.ts:73-87 | count, sum, least, greatest and average of exactly the points within the bounds |
| `AggregationWindow.AverageIsBetween` | backend/src/services/aggregationWindow.ts:73-87 | the average of a non-empty window lies between its extremes |
| `AggregationWindow.AggregateTumbling` | backend/src/services/aggregationWindow.ts:90-107 | adjacent windows of the configured size, aligned to the configured origin or 0, from the earliest point up to the last timestamp; an error names the bad setting |
| `AggregationWindow.AggregateSliding` | backend/src/services/aggregationWindow.ts:110-127 | the same at the configured step, or at the size without one |
| `AggregationWindow.PointIsInWindows` | backend/src/services/aggregationWindow.ts:110-127 | for any step and size, how many windows hold a point, by its offset alone |
| `AggregationWindow.SlidingOverlap` | backend/src/services/aggregationWindow.ts:110-127 | when the step divides the size: min(size / step, floor(offset / step) + 1) windows |
| `AggregationWindow.TumblingHoldsOnce` | backend/src/services/aggregationWindow.ts:90-107 | every point is in exactly one tumbling window |
| `AggregationWindow.NothingIsMissedIff` | backend/src/services/aggregationWindow.ts:110-127 | no time is missed exactly when the step is at most the size |
| `AggregationWindow.TotalsByPoint` | backend/src/services/aggregationWindow.ts:90-127 | totals over windows are totals over points weighted by the windows that hold them |
| `AggregationWindow.TumblingConserves` | backend/src/services/aggregationWindow.ts:90-107 | counts and sums over tumbling windows are those of the input |
| `AggregationWindow.WindowsAreDetermined` | backend/src/services/aggregationWindow.ts:90-127 | equal starts, steps and sizes give equal windows, so sliding by the size is tumbling |
| `AggregationWindow.AggregateWindows` | backend/src/services/aggregationWindow.ts:130-138 | dispatches on the type, and tumbling windows conserve the input |
| `Pagination.NormalizeLimit` | sdk/src/pagination.ts:50-53 | the limit is the given one between 1 and 100, 20 when absent or below 1, and 100 above 100 |
| `Pagination.NormalizePaginationParams` | sdk/src/pagination.ts:45-71 | the given page, 1 when it is below 1 or nothing is given, or the page that holds a given offset; the given offset, or the one that starts the page |
| `Pagination.FetchServed` | sdk/src/pagination.ts:76-141 | against every style of fetcher and any options: the slice asked for, a next page exactly by that style's rule, a previous one after the first page, and the style's total |
| `Pagination.FetchReports` | sdk/src/pagination.ts:76-141 | for any answer: metadata of the provider first, else page count, next and previous by a named total or by the page itself |
| `Pagination.PageSplits` | sdk/src/pagination.ts:76-141 | a page with a successor is full and the list goes on after it; otherwise nothing follows |
| `Pagination.WalkIsTheList` | sdk/src/pagination.ts:146-195 | a walk from page p sees the list from there on, cut to the pages and items allowed |
| `Pagination.WalkEndsIff` | sdk/src/pagination.ts:146-174 | without limits a walk reaches a last page except at a fixed offset in bare arrays with a full page left |
| `Pagination.IterateItems` | sdk/src/pagination.ts:146-195 | the loop yields the walk's items and ends whenever the walk does |
| `Pagination.CollectAllPages` | sdk/src/pagination.ts:200-209 | the walk's items; without an obeyed offset the list dropped by the pages before, cut to pages and items, with no gaps or repeats |
| `Pagination.LimitedOffsetWalkIff` | sdk/src/pagination.ts:58-195 | from any page and under any limits a walk with an obeyed offset returns the list from there on, cut as allowed, exactly when it yields as many items as are due and those repeat from page to page |
| `Pagination.WalkGoesRound` | sdk/src/pagination.ts:146-195 | such a walk is the one page over and over, for exactly as many items as pages, limits and list allow |
| `Pagination.OffsetWalkIff` | sdk/src/pagination.ts:58-195 | without limits, from any page, when such a walk ends and returns the list from that offset on |
| `Pagination.FirstPageOffsetWalkIff` | sdk/src/pagination.ts:58-195 | the same from page 1 with a total, by list, limit and offset alone |
| `Pagination.FullPageRepeats` | sdk/src/pagination.ts:146-174 | otherwise it yields the same full page as many times as pages are allowed |
| `Pagination.LowPageIsTheListIff` | sdk/src/pagination.ts:62-64 | from a page below one, without limits, the list comes out exactly when the first page is the last |
| `Pagination.LowPageIsFirstIff` | sdk/src/pagination.ts:62-64 | with limits, for a list without repeats, the walk agrees with one from page 1 exactly then or when the limits allow no second page |
| `BreakerSteps.HistoryIsTold` | sdk/src/resilience.ts:97-174 | in every interleaving the fields are told by the history; while closed the count is the trailing run of failures and below the threshold |
| `BreakerSteps.OpensIff` | sdk/src/resilience.ts:160-166 | it opens exactly when a run of failures reaches the threshold |
| `BreakerSteps.LeavesOpenIff` | sdk/src/resilience.ts:114-121 | it leaves open exactly by a reset or a query later than the timeout after the last failure |
| `BreakerSteps.ClosesIff` | sdk/src/resilience.ts:146-158 | it closes exactly by a reset or by enough successes with no failure between |
| `BreakerSteps.OpenShields` | sdk/src/resilience.ts:114-166 | without a late query or a reset it stays open whatever calls report |
| `CircuitBreaker.CircuitBreaker.constructor` | sdk/src/resilience.ts:107-112 | starts closed; non-zero options are kept, absent or zero ones take their defaults |
| `CircuitBreaker.CircuitBreaker.GetState` | sdk/src/resilience.ts:114-121 | the query step and the state it leaves |
| `CircuitBreaker.CircuitBreaker.Admit` | sdk/src/resilience.ts:123-134 | the function is called exactly when the breaker is not open after the query |
| `CircuitBreaker.CircuitBreaker.Report` | sdk/src/resilience.ts:133-143 | the outcome is recorded and returned, replaced by the fallback or thrown |
| `CircuitBreaker.CircuitBreaker.RecordSuccess` | sdk/src/resilience.ts:146-158 | the success step |
| `CircuitBreaker.CircuitBreaker.RecordFailure` | sdk/src/resilience.ts:160-166 | the failure step |
| `CircuitBreaker.CircuitBreaker.Reset` | sdk/src/resilience.ts:168-173 | back to the state of a new breaker |

## Left out

- Fields that no modelled decision reads: task source types, decoder epochs and metadata, plan ids and creation
  times, decision fingerprints and timestamps, policy versions, payloads and aggregate ids of outbox rows.
- `explainPlan`, `getBudget`, `verifyOutput`, `detectProviderLimits`, statistics and list queries: no behaviour of
  their own.
- `MultiRpcFailover`, the SDK's `DeadLetterQueue`, `withExponentialBackoff`, escalation chains, admin rotation and
  alert rules: easier than what is here.
- `pseudonymizeValue` and `classifyString`: thin variants of members that are modelled.
- CriticalPath.Depth: needs an acyclic graph, like the next.
- CriticalPath.CriticalPathLength: requires an acyclic record; on a cyclic one the source recurses without end.
- Scheduler.LeaseManager.GetExpiredLeases: returns a set; the order of the returned keys is not modelled.
- Scheduler.BackfillScheduler.CleanupExpiredLeases: the same.
- Redaction.Walk: dates, big integers and other values that are not JSON, and objects with a `__proto__` key, are not
  modelled; numbers are opaque.
- Redaction.RenumberedStaysFixed: the facts about `JSON.parse` and `JSON.stringify` are hypotheses, not proved.
- Outbox.RunOutboxDlqRedriveJob: the listed rows are any duplicate-free selection; their limit and order are not
  modelled. Row locks and the job-id deduplication of the poller are ignored.
- OutboxStatements.RunsKeepInv: disciplined runs have no error outside the marked stretch of a dispatch, and redrives
  and administrator writes that meet dead-lettered events at that moment. Without the discipline two jobs can hold an
  event (`OutboxAccount.OutsideErrorIff`, `OutboxAccount.PutBackIff`); `OutboxAccount.RunsKeepTables` is what remains.
- OutboxStatements.RunKeepsBalance: the same discipline; the account is false without it, and
  `OutboxAccount.AccountOverAnyRun` says by how much.
- OutboxAccount.PutBackIff: says which single write starts a loss; continuations after it are disciplined again.
- OutboxAccount.OutsideErrorIff: the same for a single error.
- Outbox.RetryEvent: one call with nothing between its select and its update; the update that meets an event which has
  moved on is the statement `AdminRequeue`, in `OutboxAccount.PutBackIff`.
- Outbox.DelayIsNearBackoff: real numbers instead of floating point.
- SchedulerSteps.PercentFullIff: exact rounding instead of floating point.
- AggregationWindow.WindowStartFor: non-finite settings are not modelled; timestamps and sizes are integers.
- AggregationWindow.TumblingConserves: sums are exact reals; the order-dependent rounding of the source is not modelled.
- Pagination.CollectAllPages: page, limit and offset are integers, so flooring and NaN do not occur; fetchers that
  serve no fixed list, and the walks that `Pagination.WalkEndsIff` shows to be endless, are outside its contract.
- AlertCsv.CsvRoundTrip: a lone carriage return is data, as the source writes it unquoted; a decoder that also breaks
  at CR LF would read it differently.
