# Verified models of the judge's and the gateway's shared state

The online judge keeps the state that its workers and its language-model gateway share in Redis,
and changes it by small scripts that run atomically. This Dafny project models those scripts and
the loops around them, and proves what they guarantee over every interleaving.

- **Resource leases** (`LeaseTable`, `Scheduler`, `ResourceGroup`, `Admission`, `TurnFairness`, `TurnQueue`,
  `CounterRestart`, `LeaseRenewal`, `Heartbeat`): tasks reserve memory, stages borrow the headroom of their task, `run` stages take
  turns by parent, leases expire unless renewed.
- **Provider throttle** (`SortedSets`, `ProviderThrottle`, `ThrottleRuns`, `ThrottleFifo`,
  `ThrottleHints`, `ThrottleScripts`, `ProviderSlots`, `ThrottleWaiters`): a sliding window of requests and tokens behind a
  first-come-first-served queue.
- **Quota counters** (`QuotaKeys`, `QuotaScripts`, `QuotaRuns`, `QuotaLives`, `QuotaRates`): 27 counters per call, checked
  together, raised together, corrected once the actual use is known.
- **Task queues and user claims** (`PriorityRotation`, `TaskQueues`, `TaskDelivery`, `TaskConservation`,
  `UserClaims`):
  a 4:2:1 rotation over reliable queues, and one evaluation per user across workers.
- **Two small lexers** (`CommentMasking`, `WrittenSource`, `SqlSplitting`) of the repository's own gates.

Each protocol is written twice. Functions on immutable values give every script as one atomic step,
and lemmas over sequences of steps state what all runs keep. Classes and methods hold the scripts'
own loops over stored tables, and each method is proved to perform that atomic step. `FiniteSums`
and `Numbers` hold the arithmetic that the protocols share.

`dafny verify dfyconfig.toml` checks everything.

Places where the code does less than one would expect are stated exactly, each with an input that shows
it and the condition under which it cannot happen:

- The turn counter's time-to-live is refreshed only when a turn is used, so it can restart below the
  scores of a living turn set, and a parent then goes twice while another waits
  (`CounterRestart.ParentGoesTwice`). `TurnFairness.CounterKeptIff` says when, in terms of the stored
  expiry instants; the fairness theorems assume only that it does not happen.
- A lease's `lost` flag can come too late if the grant itself took 45 s or more to arrive
  (`LeaseRenewal.FlagIsSoundIff`).
- A call settled in another day or month than it was granted in is corrected on the wrong counters
  (`QuotaRuns.SettlementKeepsBooksIff`, `QuotaRuns.SettledAfterMidnight`).
- A pull that meets malformed messages skips slots (`TaskQueues.MalformedMessageHidesTask`,
  `TaskQueues.MalformedPullIsCompleteIff`), so the rotation theorems are about pulls that meet none;
  whether the next message of each queue parses is all they ask.
- A malformed message whose dead-letter push is refused is removed all the same
  (`TaskDelivery.RemovalKeepsIff`, `TaskDelivery.RefusedPushLosesMessage`).
- One user's and problem's budget is spent by others if an id contains a colon
  (`QuotaKeys.OwnBudgetIff`, `QuotaKeys.ColonsMergeCounters`).
- An evaluation's own counters expire a token's lifetime after they start, so a later token of the same
  evaluation, or the same token in its last second, finds a fresh budget
  (`QuotaLives.BudgetBeginsAgainIff`, `QuotaLives.LastSecondIsFree`).
- An evaluation that reaches the claim's TTL is joined by a second one (`UserClaims.SecondClaimSucceedsIff`,
  `UserClaims.OverstayingLetsSecondIn`).
- A refusal's report names the wrong window if an id, or a part of one between colons, reads `day` or
  `month` (`QuotaKeys.DiagnosisIsRightIff`, `QuotaKeys.UserCalledDayMisleads`).

## Model

| member | source | states |
|---|---|---|
| `Scheduler.NeverOvercommitted` | noj-judge/src/scheduling.rs:196-249 | after any interleaving of attempts, resizes, shrinks, renewals, releases, memory reports and time passing, the unexpired leases reserve at most the memory budget and every kind is within its limit |
| `LeaseTable.LighterReserves` | noj-judge/src/scheduling.rs:228-235 | a table whose surviving leases are the same or smaller never reserves more: expiry or release of any lease, even of a task whose stages are still live, cannot raise the total |
| `LeaseTable.LighterFits` | noj-judge/src/scheduling.rs:228-239 | such a table also stays within every per-kind limit |
| `LeaseTable.ReservedSplits` | noj-judge/src/scheduling.rs:232-235 | the per-group definition of the total equals the script's two sums, over tasks and over orphaned stages |
| `LeaseTable.ReservedAfterInsert` | noj-judge/src/scheduling.rs:228-235 | the total after storing a lease is the old total with the cost of one group replaced |
| `LeaseTable.TaskCostWithinReserved` | noj-judge/src/scheduling.rs:232-235 | a live task's base plus the larger of headroom and stages is part of the total |
| `Scheduler.PrepareLeases` | noj-judge/src/scheduling.rs:200-211 | before the decision an attempt drops expired leases and nothing else, and cannot be granted |
| `Scheduler.DecideIsSafe` | noj-judge/src/scheduling.rs:228-248 | the decision keeps the invariant, for a new lease as for a resized one |
| `Scheduler.AcquireIsSafe` | noj-judge/src/scheduling.rs:196-249 | a whole attempt keeps the invariant, granted or refused |
| `Scheduler.StepIsSafe` | noj-judge/src/scheduling.rs:403-513 | so does every other operation of any worker |
| `Scheduler.KeyExpiryDropsNoLiveLease` | noj-judge/src/scheduling.rs:183 | in every reachable state, losing the lease key to its doubled time-to-live, at any later instant, loses no lease that is unexpired then |
| `Scheduler.StageCost` | noj-judge/src/scheduling.rs:232-235 | storing a stage raises the total exactly by the part that its parent's headroom does not cover |
| `Scheduler.DecisionIsTheTest` | noj-judge/src/scheduling.rs:200-248 | past the memory gate, the parent check and the turn check, the outcome is the admission test on the unexpired leases |
| `Scheduler.StageGrantedIff` | noj-judge/src/scheduling.rs:228-248 | a stage that reaches the decision is granted if and only if its kind has a free slot and the memory not covered by its parent's headroom fits |
| `Scheduler.CoveredStageIsGranted` | noj-judge/src/scheduling.rs:194-248 | no admission deadlock: with a free slot, a stage covered by its parent's headroom is granted however full the group is |
| `Scheduler.CoveredStageIsAdmitted` | noj-judge/src/scheduling.rs:309-332 | nor does the client reject it as too large before the script runs: such an attempt returns a lease |
| `Admission.TaskGrantedIff` | noj-judge/src/scheduling.rs:204-248 | a task's attempt, first or resize, is granted if and only if the memory gate is open, its pool has a slot besides its own old lease, and its base and the larger of its headroom and its living stages fit next to all others |
| `Admission.AnswerTellsLease` | noj-judge/src/scheduling.rs:245-248 | the answer is a grant exactly when the lease is stored, for one time-to-live from now; otherwise no lease is stored, renewed or lost but to expiry |
| `Admission.ParentGoneIff` | noj-judge/src/scheduling.rs:204-211 | a stage is told that its parent is gone exactly when it is, with the gate open |
| `Admission.TooLargeIff` | noj-judge/src/scheduling.rs:309-317 | a demand is rejected as too large exactly when it would not fit an empty group, and then touches nothing |
| `Admission.ClientAnswers` | noj-judge/src/scheduling.rs:318-333 | otherwise the client admits exactly what the script grants, and reports a lost lease exactly when the parent is gone |
| `Admission.LeaseLasts` | noj-judge/src/scheduling.rs:196-249 | until it expires nothing that others do ends a lease: no attempt, resize, shrink, report or loss of a key |
| `Admission.GrantLasts` | noj-judge/src/scheduling.rs:228-248 | a granted lease that nobody releases is alive for one time-to-live, over any run |
| `Admission.RenewalLasts` | noj-judge/src/scheduling.rs:467-472 | and so is a renewed one, from its renewal on |
| `Admission.ReleaseUndoesGrant` | noj-judge/src/scheduling.rs:501-513 | a grant followed by its release leaves the living leases as they were |
| `Admission.ShrinkFrees` | noj-judge/src/scheduling.rs:435-453 | shrinking frees exactly the difference in base and changes no other lease and no expiry |
| `Admission.PoolsStayWithinLimits` | noj-judge/src/scheduling.rs:236-239 | in every reachable state each pool's tasks and each phase's stages are within the limit that carries their name |
| `Admission.ReportCounts` | noj-judge/src/metrics.rs:178-181 | a worker's memory report counts for 30 s, in place of its last one, and not after |
| `Admission.ClosedGateOnlyForgets` | noj-judge/src/scheduling.rs:200-205 | with the memory gate closed nothing is granted, nobody queues, and only expired reports go |
| `ResourceGroup.Tally` | noj-judge/src/scheduling.rs:228-231 | the loop over entries computes the count of each kind, the tasks, and each parent's stage memory |
| `ResourceGroup.TaskMemory` | noj-judge/src/scheduling.rs:232-234 | the first sum of the script |
| `ResourceGroup.OrphanMemory` | noj-judge/src/scheduling.rs:235 | the second sum: stages whose task is gone |
| `ResourceGroup.WithinLimits` | noj-judge/src/scheduling.rs:236-239 | the loop over counts decides whether all kinds are within their limits |
| `ResourceGroup.Weigh` | noj-judge/src/scheduling.rs:228-239 | loops and comparisons together decide exactly whether the table fits |
| `ResourceGroup.First` | noj-judge/src/scheduling.rs:225 | the head of the turn set: lowest score, ties by member |
| `ResourceGroup.Group.constructor` | noj-judge/src/scheduling.rs:288-304 | an empty group |
| `ResourceGroup.Group.SampleRss` | noj-judge/src/scheduling.rs:200-204 | drops expired memory samples and totals the others |
| `ResourceGroup.Group.PruneLeases` | noj-judge/src/scheduling.rs:206-210 | drops exactly the expired leases |
| `ResourceGroup.Group.PruneRequests` | noj-judge/src/scheduling.rs:216-221 | drops exactly the requests that are expired or whose parent has no lease, and collects the waiting parents |
| `ResourceGroup.Group.PruneTurns` | noj-judge/src/scheduling.rs:222-223 | drops exactly the parents nobody waits for |
| `ResourceGroup.Group.EnqueueAttempt` | noj-judge/src/scheduling.rs:212-226 | the whole fairness block, including that a refused attempt leaves its edits behind and a returning parent enters at score 0 |
| `ResourceGroup.Group.PrepareAttempt` | noj-judge/src/scheduling.rs:200-227 | everything before the decision, with its three early returns |
| `ResourceGroup.Group.TakeTurn` | noj-judge/src/scheduling.rs:241-243 | the turn counter grows by one and becomes the parent's score |
| `ResourceGroup.Group.StoreLease` | noj-judge/src/scheduling.rs:246-248 | a granted demand becomes a lease, and a run attempt's request goes |
| `ResourceGroup.Group.DecideAttempt` | noj-judge/src/scheduling.rs:228-248 | the rest of the script: a turn is used unless the run slots are the obstacle; a lease is stored only when everything fits |
| `ResourceGroup.Group.AcquireScript` | noj-judge/src/scheduling.rs:196-249 | the loops perform the atomic step that the theorems speak about |
| `ResourceGroup.Group.ShrinkScript` | noj-judge/src/scheduling.rs:435-453 | a lease's base becomes the smaller value; nothing else changes; a missing lease is reported |
| `ResourceGroup.Group.RenewScript` | noj-judge/src/scheduling.rs:467-472 | renews an unexpired lease, and only that |
| `ResourceGroup.Group.ReleaseLease` | noj-judge/src/scheduling.rs:501-513 | removes one lease |
| `ResourceGroup.Group.DropRequest` | noj-judge/src/scheduling.rs:382-393 | removes one waiting request |
| `TurnFairness.TurnTaken` | noj-judge/src/scheduling.rs:240-244 | only the first parent takes a turn; it goes to the counter's new value, behind every counted score, and nobody else moves |
| `TurnFairness.NoTurnTaken` | noj-judge/src/scheduling.rs:212-227 | no other step reorders parents that stay; newcomers enter at 0 |
| `TurnFairness.CounterKeptIff` | noj-judge/src/scheduling.rs:241-243 | the counter is lost under a living turn set exactly when time passes beyond its expiry, but not the turn set's, while both are in use |
| `TurnFairness.ReachableScoresAreBounded` | noj-judge/src/scheduling.rs:222-244 | in every state reached from the empty group while the counter survived, no score exceeds it |
| `TurnFairness.ReachableParentsAlternate` | noj-judge/src/scheduling.rs:212-244 | in every group whose counter has survived, two parents that stay from some point on differ by at most one turn from then on |
| `TurnFairness.ParentsAlternate` | noj-judge/src/scheduling.rs:212-244 | of two parents that stay in the turn set neither gets more than one turn ahead of the other over any stretch of any run |
| `TurnFairness.StepAhead` | noj-judge/src/scheduling.rs:222-244 | another parent's turn removes exactly one parent from in front of a waiting one |
| `TurnFairness.WaitIsBounded` | noj-judge/src/scheduling.rs:212-244 | in a fixed set of n parents a waiting one is first after at most n-1 turns of others, and exactly when all that were ahead have had theirs |
| `TurnFairness.CoveredRunIsServedInTurn` | noj-judge/src/scheduling.rs:212-248 | in a fixed set of n parents an attempt of a covered run stage, with the memory gate open and a slot free, is admitted if and only if those that were ahead of its parent, at most n-1, have all had their turns |
| `TurnFairness.SilentParentIsDropped` | noj-judge/src/scheduling.rs:212-223 | a parent that stops asking, first or not, costs the others one time-to-live: from then on the next attempt that reaches the turn queue drops it |
| `TurnFairness.TurnYieldsIff` | noj-judge/src/scheduling.rs:241-243 | after its turn a parent is behind another exactly when the other's score did not exceed the counter it drew from (or ties one above) |
| `TurnQueue.TurnUsedIff` | noj-judge/src/scheduling.rs:240-244 | a run attempt that reaches the decision uses its turn if and only if a run slot is free, granted or refused for memory alike |
| `TurnQueue.AttemptYields` | noj-judge/src/scheduling.rs:240-244 | so a first parent with a slot free, even one whose stage never fits, ends behind every waiting parent whose score the counter bounds |
| `TurnQueue.AttemptAdvances` | noj-judge/src/scheduling.rs:240-244 | and everybody who waits is exactly one place nearer to the front |
| `TurnQueue.FullSlotsKeepTurn` | noj-judge/src/scheduling.rs:240-244 | with no slot free the attempt is refused, the counter stands still and the parent stays first |
| `TurnQueue.OthersKeepWaiting` | noj-judge/src/scheduling.rs:212-226 | another stage's request, and its parent's place, survive every attempt while the request is unexpired and its task alive |
| `TurnQueue.CallerWaitsOrIsServed` | noj-judge/src/scheduling.rs:212-248 | a refused caller waits, with a place for its parent, for one time-to-live; a granted one no longer waits |
| `TurnQueue.GivingUpIsExact` | noj-judge/src/scheduling.rs:382-393 | a stage that gives up takes its own request and no other |
| `TurnQueue.KeyExpiryDropsNobodyWaiting` | noj-judge/src/scheduling.rs:213-224 | in every reachable state the queue's keys lose nothing to their doubled time-to-live while any request is unexpired |
| `CounterRestart.CounterRestartsBelowScore` | noj-judge/src/scheduling.rs:222-243 | a concrete run, under settings a worker accepts, of attempts, renewals and polls from the empty group, after which the counter has restarted below the score of a waiting parent |
| `CounterRestart.ParentGoesTwice` | noj-judge/src/scheduling.rs:212-244 | from that state one parent has two turns and the other none, although both stay in the turn set |
| `CounterRestart.RoundKeepsBusy` | noj-judge/src/scheduling.rs:212-249 | renewing and polling every 50 s keeps leases, requests and turn set alive and leaves the counter's expiry alone |
| `Heartbeat.Collect` | noj-judge/src/metrics.rs:182-211 | the loop over leases fills the counts, leaving out zero-sized probes, and the task and stage maps |
| `Heartbeat.ReportReserved` | noj-judge/src/metrics.rs:182-226 | the reported memory is the admission total minus the stages whose task is gone |
| `Heartbeat.ReportIsExactIff` | noj-judge/src/metrics.rs:212-226 | the report equals the admission total if and only if no orphaned stage holds memory |
| `LeaseRenewal.StaysOnTime` | noj-judge/src/scheduling.rs:454-488 | with timers on time and any behaviour of network and server, a worker whose flag is unset holds an unexpired lease |
| `LeaseRenewal.FlagIsSoundIff` | noj-judge/src/scheduling.rs:454-490 | that holds for all behaviours if and only if the grant took less than 45 s (TTL less tick less deadline) to reach the worker; the acquiring call has no deadline of its own |
| `LeaseRenewal.AnsweredRenewalsKeepLease` | noj-judge/src/scheduling.rs:454-490 | while every renewal is answered in time, a worker that learned of its grant in time never loses the lease |
| `LeaseRenewal.RenewalTask.constructor` | noj-judge/src/scheduling.rs:454-462 | the first renewal is due one interval after the grant is learned of |
| `LeaseRenewal.RenewalTask.ExecuteScript` | noj-judge/src/scheduling.rs:467-472 | the renewal script on an expired and on an unexpired lease |
| `LeaseRenewal.RenewalTask.Turn` | noj-judge/src/scheduling.rs:463-480 | one turn of the loop is a run of the protocol; the flag is set exactly when the answer misses the 5 s deadline or the lease was expired |
| `ProviderThrottle.ReliefIsExact` | noj-llm-gateway/src/provider-throttle.ts:85-98 | the token window makes room exactly when the relieving entry expires, with ties and with requests above the limit |
| `ProviderThrottle.RpmWaitShifts` | noj-llm-gateway/src/provider-throttle.ts:75-82 | the request-limit wait d later is exactly d shorter |
| `ProviderThrottle.TpmWaitShifts` | noj-llm-gateway/src/provider-throttle.ts:84-98 | the token-limit wait d later is exactly d shorter |
| `ProviderThrottle.NextCall` | noj-llm-gateway/src/provider-throttle.ts:72-109 | a head that calls again d later finds its wait d shorter, or is admitted |
| `ProviderThrottle.WaitIsExact` | noj-llm-gateway/src/provider-throttle.ts:75-109 | told to wait w, the head is refused at every earlier instant with the remaining time and admitted at now + w |
| `ThrottleHints.PollBehindHead` | noj-llm-gateway/src/provider-throttle.ts:63-73 | a poll behind a fresh head is told its rank and changes the windows by pruning only |
| `ThrottleHints.WaitIsExactUnderTraffic` | noj-llm-gateway/src/provider-throttle.ts:54-109 | the hint is exact under traffic: whatever others poll and leave behind the head while its heartbeat is fresh, its next call is told the rest of its wait, or admitted |
| `ProviderThrottle.AcquireWindows` | noj-llm-gateway/src/provider-throttle.ts:51-52 | an attempt prunes both windows and adds to both exactly when it is admitted |
| `ProviderThrottle.ArriveIsQueued` | noj-llm-gateway/src/provider-throttle.ts:54-73 | the caller is always in the queue when its rank is read |
| `ThrottleRuns.WindowsNeverOverflow` | noj-llm-gateway/src/provider-throttle.ts:75-106 | for every instant t after any run, at most rpmLimit unreleased admissions lie in (t - window, t], with tokens at most the larger of tpmLimit and the largest request, plus upward corrections (none if settlement never raises) |
| `ThrottleRuns.BooksAlwaysAgree` | noj-llm-gateway/src/provider-throttle.ts:103-135 | in every reachable state both windows are exactly the clients' unreleased slots since the last pruning, with the amounts the clients have on record |
| `ThrottleRuns.HeadAdmittedIff` | noj-llm-gateway/src/provider-throttle.ts:75-106 | a caller at the head is admitted if and only if both windows have room |
| `ThrottleRuns.RevalueCommutes` | noj-llm-gateway/src/provider-throttle.ts:127-135 | settlement changes the amount and keeps the admission instant, before and after pruning alike |
| `ThrottleRuns.PollBooks` | noj-llm-gateway/src/provider-throttle.ts:40-110 | an attempt keeps the books |
| `ThrottleRuns.CorrectBooks` | noj-llm-gateway/src/provider-throttle.ts:277-291 | a correction by the client keeps the books |
| `ThrottleRuns.GiveBackBooks` | noj-llm-gateway/src/provider-throttle.ts:267-276 | a release by the client keeps the books |
| `ThrottleRuns.RunBooks` | noj-llm-gateway/src/provider-throttle.ts:103-135 | the books are kept over every run, and pruning only moves forward |
| `ThrottleRuns.GiveBackUndoesAdmission` | noj-llm-gateway/src/provider-throttle.ts:103-124 | admission followed, any time and any refused polls of others later, by release restores both windows, but for what expired meanwhile |
| `ThrottleFifo.JoinAppends` | noj-llm-gateway/src/provider-throttle.ts:54-61 | joining appends a fresh ticket at the back, or keeps the one held |
| `ThrottleFifo.EvictsExactlyTheStalePrefix` | noj-llm-gateway/src/provider-throttle.ts:63-70 | each call ends with the caller or a fresh waiter at the head, having evicted exactly the stale waiters ahead |
| `ThrottleFifo.AdmittedIsEarliest` | noj-llm-gateway/src/provider-throttle.ts:72-73 | whoever is admitted held an earlier ticket than every fresh waiter |
| `ThrottleWaiters.AttemptKeepsOthers` | noj-llm-gateway/src/provider-throttle.ts:54-109 | a call, admitted or not, takes of the others only the stale ones out of the queue, with their heartbeats, and no heartbeat of anybody still queued; the caller itself waits with a new heartbeat, or is admitted and gone |
| `ThrottleWaiters.LeavingIsExact` | noj-llm-gateway/src/provider-throttle.ts:113-117 | leaving takes the caller's own place and heartbeat and nobody else's |
| `ThrottleWaiters.QueuedIff` | noj-llm-gateway/src/provider-throttle.ts:63-73 | a caller is told a rank if and only if somebody fresh holds an earlier ticket |
| `ThrottleWaiters.RankIsPlace` | noj-llm-gateway/src/provider-throttle.ts:72-73 | the rank is the number of waiters in front of it, the first of them fresh |
| `ThrottleWaiters.FirstInFirstOut` | noj-llm-gateway/src/provider-throttle.ts:54-109 | over any run in which a waiter does not leave and polls at most the stale time before every other client's poll, it keeps its ticket until it is admitted, and everyone admitted before it held an earlier one; nothing is assumed of the stored heartbeats |
| `ThrottleWaiters.PollingIsEnough` | noj-llm-gateway/src/provider-throttle.ts:54-109 | the same from a client's first call on: refused then, it holds a later ticket than everybody queued, and is served in that order |
| `ThrottleFifo.StaleWaitersDoNotBlock` | noj-llm-gateway/src/provider-throttle.ts:63-106 | a caller behind none but stale waiters is at the head after its own call and is admitted exactly when the windows have room |
| `ThrottleFifo.QueueStaysOk` | noj-llm-gateway/src/provider-throttle.ts:54-73 | the queue stays in ticket order over every run |
| `ThrottleHints.ExpiredWindowsAreEmpty` | noj-llm-gateway/src/provider-throttle.ts:49-52 | by the time the windows' keys can expire, the next call would find the windows empty anyway |
| `ThrottleHints.NothingIsAheadOfTime` | noj-llm-gateway/src/provider-throttle.ts:54-59 | over every run no heartbeat and no admission is later than the clock, so the last call bounds both |
| `ThrottleHints.QuietRun` | noj-llm-gateway/src/provider-throttle.ts:54-59 | and without further calls it still does |
| `ThrottleHints.ExpiredKeysMakeNoDifference` | noj-llm-gateway/src/provider-throttle.ts:49-109 | and once the queue's keys can expire too, a caller is admitted whether they have or not |
| `ThrottleScripts.ComputeRpmWait` | noj-llm-gateway/src/provider-throttle.ts:75-82 | the request part of the wait |
| `ThrottleScripts.ComputeTpmWait` | noj-llm-gateway/src/provider-throttle.ts:84-98 | the totalling loop and the freeing loop compute the token part of the wait |
| `ThrottleScripts.DropStaleHeads` | noj-llm-gateway/src/provider-throttle.ts:63-70 | the eviction loop terminates and removes exactly the stale prefix, with its heartbeats |
| `ThrottleScripts.Throttle.constructor` | noj-llm-gateway/src/provider-throttle.ts:138-160 | an idle provider |
| `ThrottleScripts.Throttle.EvictStale` | noj-llm-gateway/src/provider-throttle.ts:63-70 | eviction on the stored queue |
| `ThrottleScripts.Throttle.Register` | noj-llm-gateway/src/provider-throttle.ts:54-61 | a ticket unless one is held, and a heartbeat |
| `ThrottleScripts.Throttle.LeaveQueue` | noj-llm-gateway/src/provider-throttle.ts:113-117 | leaves queue and heartbeats |
| `ThrottleScripts.Throttle.AcquireScript` | noj-llm-gateway/src/provider-throttle.ts:40-110 | the loops perform the atomic step that the theorems speak about |
| `ThrottleScripts.Throttle.ReleaseScript` | noj-llm-gateway/src/provider-throttle.ts:120-124 | removes the slot from both windows |
| `ThrottleScripts.Throttle.SettleScript` | noj-llm-gateway/src/provider-throttle.ts:127-135 | re-enters the slot with its new amount at its old instant, if it is there under the recorded amount |
| `ProviderSlots.PollingKeepsFresh` | noj-llm-gateway/src/provider-throttle.ts:23-28 | between its polls a refused waiter's heartbeat never goes stale, in the queue or at its head |
| `ThrottleHints.NextPoll` | noj-llm-gateway/src/provider-throttle.ts:259-305 | each further poll of a head that was told to wait is told exactly the rest, or admits it |
| `ProviderSlots.AcquireProviderSlot` | noj-llm-gateway/src/provider-throttle.ts:240-306 | the polling loop: whatever others do between its polls, the client gets a slot within its time-out or leaves at its deadline with neither a place in the queue nor a slot; if others only poll and leave behind it, a caller told to wait w gets its slot if and only if w is within the time-out, less than one shortest poll late, and is otherwise told to come back after the rest, in seconds rounded up |
| `ProviderSlots.ProviderSlot.constructor` | noj-llm-gateway/src/provider-throttle.ts:267-268 | the slot records the estimate |
| `ProviderSlots.ProviderSlot.Release` | noj-llm-gateway/src/provider-throttle.ts:271-276 | gives back under the amount on record |
| `ProviderSlots.ProviderSlot.Settle` | noj-llm-gateway/src/provider-throttle.ts:277-286 | corrects the window and the amount on record together, or does nothing if they agree |
| `QuotaKeys.RateKeys` | noj-llm-gateway/src/limits.ts:241-247 | both are the keys of rate windows, which no counter has |
| `QuotaRates.RateKeysAgreeIff` | noj-llm-gateway/src/limits.ts:241-247 | two calls share the first window if and only if they are of one user in one minute, the second if and only if they come in one minute from one address, or without an address for one submission; a user's window is another call's second one exactly for a user named like it |
| `QuotaRates.MinuteCounts` | noj-llm-gateway/src/limits.ts:345-360 | over any run a window counts, for a whole minute, each attempt of its user once, and each of its address that the users' windows let pass |
| `QuotaRates.UserPassesIff` | noj-llm-gateway/src/limits.ts:353-356 | an attempt passes its user's window if and only if fewer attempts than the rate were counted there this minute |
| `QuotaRates.RateIsKept` | noj-llm-gateway/src/limits.ts:353-360 | no minute of a user, an address or a submission is granted more calls than its rate |
| `QuotaKeys.CountersAreNotRates` | noj-llm-gateway/src/limits.ts:31-39 | no counter's key is a rate window's, whatever the ids |
| `QuotaKeys.SharedKeySharesKind` | noj-llm-gateway/src/limits.ts:221-231 | two tokens that share a key share its metric and scope, for all ids |
| `QuotaKeys.KeysAgreeIff` | noj-llm-gateway/src/limits.ts:249-294 | two keys of one token agree if and only if they are the same counter in the same window, for all ids |
| `QuotaKeys.KeyFields` | noj-llm-gateway/src/limits.ts:31-39 | with colon-free ids, splitting a key at its colons gives back scope, ids, window and metric |
| `QuotaKeys.SharedCounterIff` | noj-llm-gateway/src/limits.ts:221-294 | for all ids, two tokens share a counter if and only if it is the same counter of the same window and of the same evaluation, user or problem, or, for the user-and-problem budget, the two ids read the same once joined by a colon |
| `QuotaKeys.OwnBudgetIff` | noj-llm-gateway/src/limits.ts:226-229 | no other user and problem, whatever their ids, spend this token's user-and-problem budget if and only if its own two ids contain no colon |
| `QuotaKeys.ColonsMergeCounters` | noj-llm-gateway/src/limits.ts:226-229 | an input for which they do: two tokens of different users and problems with one budget |
| `QuotaKeys.FieldsOfGlue` | noj-llm-gateway/src/limits.ts:318 | splitting at colons undoes gluing with a colon, whatever the texts contain |
| `QuotaKeys.DiagnosisIsRightIff` | noj-llm-gateway/src/limits.ts:312-334 | for all ids, colons included, the scope, window and metric read back from a refused key are right if and only if no field of an id in it reads like a window's name |
| `QuotaScripts.EveryCounterCharged` | noj-llm-gateway/src/limits.ts:471-564 | the list of a call's counters holds every one of the 27, at a known place |
| `QuotaScripts.SettlesAllButCalls` | noj-llm-gateway/src/limits.ts:662-739 | the list of a settlement holds every token and cost counter |
| `QuotaScripts.GrantAddsEachOnce` | noj-llm-gateway/src/limits.ts:372-375 | adding the list raises each of the 27 counters by its own increment and no other counter |
| `QuotaScripts.KeysAreDistinct` | noj-llm-gateway/src/limits.ts:471-584 | the 27 keys of a call and the 18 of a settlement are pairwise distinct, for all ids |
| `QuotaScripts.AddsEachOnce` | noj-llm-gateway/src/limits.ts:372-375 | the adding loop raises each listed counter by its own increment once, starts the life of those that were at zero, and touches no other |
| `QuotaScripts.NudgesEachOnce` | noj-llm-gateway/src/limits.ts:386-393 | the correcting loop changes each listed counter by its own difference once, not below zero, and no other |
| `QuotaScripts.First` | noj-llm-gateway/src/limits.ts:362-370 | the first counter that fails the test |
| `QuotaScripts.GrantedIff` | noj-llm-gateway/src/limits.ts:353-370 | a call is granted if and only if both rate windows allow it and each of its 27 counters is unlimited or has room for the increment |
| `QuotaScripts.RefusalNamesFirstFull` | noj-llm-gateway/src/limits.ts:362-370 | a refusal names the first counter in order without room, with the figures it was judged by |
| `QuotaScripts.AllOrNothing` | noj-llm-gateway/src/limits.ts:336-378 | a refusal changes no counter; a grant raises each of the 27 counters by its own increment and no other |
| `QuotaScripts.SettlementCorrectsEachOnce` | noj-llm-gateway/src/limits.ts:628-739 | a settlement corrects each of the 18 token and cost counters once, and no other |
| `QuotaScripts.SettlementPassesIff` | noj-llm-gateway/src/limits.ts:386-404 | a settlement is answered ok if and only if every token and cost counter but the evaluation's cost, corrected by the difference and not below zero, is unlimited or within a positive limit |
| `QuotaScripts.SettlementNamesFirstOver` | noj-llm-gateway/src/limits.ts:395-401 | otherwise it reports the first counter in order that is not, with its corrected count, the difference and the limit |
| `QuotaScripts.CheckAll` | noj-llm-gateway/src/limits.ts:362-370 | the checking loop finds the first counter without room |
| `QuotaScripts.ReportOver` | noj-llm-gateway/src/limits.ts:395-401 | the reporting loop finds the first counter over its limit |
| `QuotaScripts.Store.constructor` | noj-llm-gateway/src/limits.ts:336-404 | an empty store |
| `QuotaScripts.Store.Wait` | noj-llm-gateway/src/limits.ts:345-351 | time passes and expiries fall due |
| `QuotaScripts.Store.IncrBy` | noj-llm-gateway/src/limits.ts:346 | an expired or missing counter counts from zero |
| `QuotaScripts.Store.Expire` | noj-llm-gateway/src/limits.ts:348 | a counter's life is set from now |
| `QuotaScripts.Store.Bump` | noj-llm-gateway/src/limits.ts:345-351 | adds to one counter, starts its life if it starts from zero, and returns its value |
| `QuotaScripts.Store.AddEach` | noj-llm-gateway/src/limits.ts:372-375 | the adding loop is the specification's fold |
| `QuotaScripts.Store.Correct` | noj-llm-gateway/src/limits.ts:387-392 | one correction: below zero the counter becomes a zero without expiry, from zero its life starts |
| `QuotaScripts.Store.CorrectEach` | noj-llm-gateway/src/limits.ts:386-393 | the correcting loop with its clamp is the specification's fold |
| `QuotaScripts.Store.LimitScript` | noj-llm-gateway/src/limits.ts:336-378 | the two rate checks, the checking loop and the adding loop perform the atomic step, expiries included; a refused user rate leaves the address rate alone |
| `QuotaScripts.Store.SettleScript` | noj-llm-gateway/src/limits.ts:380-404 | the correction and the report perform the atomic step, expiries included |
| `QuotaRuns.QuotaIsConserved` | noj-llm-gateway/src/limits.ts:336-404 | after any run whose settlements are on time, a counter that no operation found expired holds the actual use of the settled calls charged to it plus the estimates of the others, and scripts read that until it expires |
| `QuotaRuns.ClampNeverFires` | noj-llm-gateway/src/limits.ts:386-393 | no on-time settlement in such a run that finds its counter alive meets the clamp at zero |
| `QuotaRuns.SettlementKeepsBooksIff` | noj-llm-gateway/src/limits.ts:612-739 | a settlement keeps every counter's books if and only if it falls in both windows of its call or has nothing to correct, and every counter it finds expired holds what makes starting again harmless |
| `QuotaRuns.SettledAfterMidnight` | noj-llm-gateway/src/limits.ts:612-739 | a run in which it happens: one granted call settled on another day leaves the first day's counter at the estimate and puts the excess on the day after |
| `QuotaRuns.AttemptBalances` | noj-llm-gateway/src/limits.ts:454-605 | an attempt that finds its counters alive, granted or refused, keeps every counter's books |
| `QuotaRuns.RestartBalancesIff` | noj-llm-gateway/src/limits.ts:345-351 | a granted attempt that finds a counter expired keeps its books if and only if nothing had been counted there |
| `QuotaRuns.SettlementBalances` | noj-llm-gateway/src/limits.ts:612-739 | a settlement on time that finds its counters alive keeps every counter's books |
| `QuotaRuns.CallsCountGrants` | noj-llm-gateway/src/limits.ts:249-294 | a counter of calls that no call found expired is the number of calls granted against it, however late they are settled |
| `QuotaRuns.GrantsNeverExceedLimit` | noj-llm-gateway/src/limits.ts:362-375 | and no more calls are granted against it than a limit of zero or more allows |
| `QuotaLives.HorizonKeepsAlive` | noj-llm-gateway/src/limits.ts:345-351 | a counter that everyone uses by some instant, and would start to live at least to it, is never found expired |
| `QuotaLives.WindowsAreOutlived` | noj-llm-gateway/src/limits.ts:249-267 | a scope's counter is never found expired on a clock that agrees with the dates, whatever the ids |
| `QuotaLives.WindowCallsNeverExceedLimit` | noj-llm-gateway/src/limits.ts:249-294 | so in a user's, a problem's or everybody's day or month no more calls are granted than the limit allows |
| `QuotaLives.WindowIsConserved` | noj-llm-gateway/src/limits.ts:249-294 | and its counters hold what its calls use, if these are settled in their windows |
| `QuotaLives.EvaluationCallsNeverExceedLimit` | noj-llm-gateway/src/routes/llm.ts:191 | an evaluation is granted no more calls than its limit if all of them come within the lifetime, from its own call, of every token used |
| `QuotaLives.TokenOutlivedUntilExpiry` | noj-llm-gateway/src/routes/llm.ts:191 | one token's calls do, up to the instant it expires at |
| `QuotaLives.TokenOutlivedInLastSecond` | noj-llm-gateway/src/crypto.ts:139 | and to the end of that second, in which it is still accepted, if it lives less than a minute or is first used at the end of the second it was issued in |
| `QuotaLives.BudgetBeginsAgainIff` | noj-llm-gateway/src/limits.ts:345-351 | two calls of one evaluation whose limit is one call are both granted if and only if the second comes after the lifetime, from the first call, of the first call's token, be it with the same token or another |
| `QuotaLives.LastSecondIsFree` | noj-llm-gateway/src/crypto.ts:139 | an input for which one token gets its only call twice |
| `QuotaRuns.LimitHoldsButForOverruns` | noj-llm-gateway/src/limits.ts:362-393 | in every run, whatever expires, a limited counter exceeds its limit by no more than the use beyond estimate of the calls settled on it |
| `QuotaKeys.UserCalledDayMisleads` | noj-llm-gateway/src/limits.ts:318-326 | a concrete id for which the report names the wrong window |
| `PriorityRotation.FirstHit` | noj-judge/src/mq.rs:176-179 | the first non-empty slot from the cursor |
| `PriorityRotation.PassedOverComesCloser` | noj-judge/src/mq.rs:30-40 | each pull that passes over a non-empty queue brings its slot closer |
| `PriorityRotation.PassedOverAtMost` | noj-judge/src/mq.rs:30-40 | a queue that stays non-empty is passed over by at most 3 (high), 5 (medium) or 6 (low) consecutive pulls, whatever the other queues do |
| `PriorityRotation.GapIsReached` | noj-judge/src/mq.rs:30-40 | the bound is exact: from every cursor some run passes the queue over exactly that often |
| `PriorityRotation.OneRound` | noj-judge/src/mq.rs:30-40 | any seven pulls with all queues non-empty serve 4, 2 and 1 |
| `PriorityRotation.ExactShares` | noj-judge/src/mq.rs:30-40 | any 7k pulls from any cursor serve exactly 4k, 2k and k |
| `TaskQueues.CleanPullFollowsRotation` | noj-judge/src/mq.rs:171-196 | a call that meets no malformed message takes the oldest message of the first non-empty slot and moves the cursor past it |
| `TaskQueues.CleanPullIsCompleteIff` | noj-judge/src/mq.rs:171-196 | such a call finds nothing if and only if all three queues are empty |
| `TaskQueues.MalformedMessageHidesTask` | noj-judge/src/mq.rs:177-192 | after a malformed message the cursor and the offset both move: a concrete state in which a waiting task is not found |
| `TaskQueues.SettledPull` | noj-judge/src/mq.rs:177-192 | a call that meets malformed messages goes on as a call on the lists without them, from an offset and a cursor that both moved |
| `TaskQueues.MalformedPullIsCompleteIff` | noj-judge/src/mq.rs:171-196 | any call, however many malformed messages it meets, finds nothing if and only if the queues still probed after the last of them are empty, and otherwise takes the oldest message of one of those |
| `TaskQueues.DiscardedSurvivesIff` | noj-judge/src/mq.rs:78-79 | a malformed message survives if and only if its dead-letter push took effect, or its removal did not, or there is another copy |
| `TaskQueues.RequeuedIsServedLast` | noj-judge/src/mq.rs:162-168 | a message given back, by requeue or for a retry, is served after everything that waited before it |
| `TaskQueues.Broker.constructor` | noj-judge/src/mq.rs:30-40 | empty lists |
| `TaskQueues.Broker.HandlePulled` | noj-judge/src/mq.rs:59-83 | a malformed message is pushed to the dead list and removed from processing, each with or without effect; a task stays in processing |
| `TaskQueues.Broker.TryPullTaskPriority` | noj-judge/src/mq.rs:171-196 | the probing loop, malformed messages included |
| `TaskQueues.Broker.RequeueTask` | noj-judge/src/mq.rs:162-219 | back to the queue once, only if it was in processing |
| `TaskQueues.Broker.AckTask` | noj-judge/src/mq.rs:224-243 | success is reported exactly when the removal is confirmed; a refused one leaves the message in processing |
| `TaskQueues.Broker.PushResultWithRetry` | noj-judge/src/mq.rs:253-338 | success is reported exactly when one of three attempts is confirmed, and then a result is on record; after three failures there is at most a fallback file, which is not success |
| `TaskDelivery.TakeMoves` | noj-judge/src/mq.rs:180-186 | a pull moves a message and loses none |
| `TaskDelivery.RequeueMoves` | noj-judge/src/mq.rs:162-168 | neither do requeue, retry and sweep |
| `TaskDelivery.StepIsSound` | noj-judge/src/main.rs:419-501 | every single command of any worker, any crash and any sweep keeps all messages accounted for |
| `TaskDelivery.NoTaskIsLost` | noj-judge/src/main.rs:386-662 | after any run, failed commands included, a well-formed message enqueued is on its own level's queue, processing or dead list, or its result is recorded, and a malformed one is too unless it was dropped; results exist only for well-formed enqueued messages |
| `TaskDelivery.NoCopyIsLost` | noj-judge/src/main.rs:386-662 | after any run without the platform-error retry, every copy of equal messages enqueued is listed, or a result was pushed for it, or it was dropped |
| `TaskDelivery.RetryKeepsCopiesIff` | noj-judge/src/judge/retry.rs:13-25 | that retry keeps the number of copies if and only if at most one is in processing |
| `TaskDelivery.DropsNeedRefusedPush` | noj-judge/src/mq.rs:78-79 | nothing is dropped while the pushes to the dead lists take effect, whatever else fails |
| `TaskDelivery.RemovalKeepsIff` | noj-judge/src/mq.rs:78-79 | the removal leaves a malformed message somewhere if and only if its push took effect, or the removal did not, or another copy was listed |
| `TaskDelivery.RefusedPushLosesMessage` | noj-judge/src/mq.rs:78-79 | a run in which a refused push followed by a removal loses a message |
| `TaskConservation.EachCopyIsAnsweredOnce` | noj-judge/src/main.rs:386-662 | over any run of confirmed commands without crashes, sweeps and platform-error retries, the processing lists hold exactly what workers have in hand, and once all are idle each copy enqueued is queued, or answered by exactly one result, or dead if it is malformed |
| `TaskConservation.EnqueuedIsServedLast` | noj-judge/src/mq.rs:171-186 | a new task is served after everything that waited at its level |
| `UserClaims.PrefixMatchesOwnClaimsOnly` | noj-judge/src/user_claim.rs:158-179 | a member has the purge's prefix if and only if it is the instance's own, whatever the submission id |
| `UserClaims.MembersAreDistinct` | noj-judge/src/user_claim.rs:45-47 | members of different claims differ |
| `UserClaims.ClaimIsRefused` | noj-judge/src/user_claim.rs:86-97 | while a holder is within the TTL, every attempt for the same user is refused and keeps the key alive |
| `UserClaims.UnheardIsSound` | noj-judge/src/main.rs:453-490 | a claim that is stored although its answer is lost shuts others out and lets nobody in |
| `UserClaims.AtMostOneEvaluation` | noj-judge/src/main.rs:453-502 | if every evaluation is over and released within the TTL, then across crashes, lost answers, restarts with purge, redelivery and expiry at most one evaluation of a user is in progress |
| `UserClaims.ClaimSucceedsIff` | noj-judge/src/user_claim.rs:86-97 | an attempt succeeds if and only if every claim on record, whoever left it, has reached the TTL |
| `UserClaims.SecondClaimSucceedsIff` | noj-judge/src/main.rs:453-502 | so a second evaluation starts beside others exactly then |
| `UserClaims.OverstayingLetsSecondIn` | noj-judge/src/main.rs:453-502 | a run in which an evaluation that reaches the TTL is joined by a second one of the same user |
| `UserClaims.ReleaseIsExact` | noj-judge/src/user_claim.rs:118-136 | a release takes the evaluation's own member off the record; every other keeps its score |
| `UserClaims.FreeIffNobodyHolds` | noj-judge/src/user_claim.rs:67-136 | over any run without crashes and lost answers whose evaluations are over in time, the members on record are exactly those of the evaluations in progress, and an attempt succeeds if and only if there is none |
| `UserClaims.OrphansOnlyDelay` | noj-judge/src/user_claim.rs:86-97 | whatever was left behind, one TTL after the last attempt on record the next one succeeds |
| `UserClaims.PurgeIsSound` | noj-judge/src/main.rs:265-295 | no purge of a stopped instance removes the claim of an evaluation in progress |
| `UserClaims.PurgeIsExact` | noj-judge/src/user_claim.rs:138-188 | after the purge nothing of the instance is left and nothing of another is lost |
| `UserClaims.PurgeKey` | noj-judge/src/user_claim.rs:172-180 | the inner loop removes exactly one user's members with the prefix and counts them |
| `UserClaims.PurgeAll` | noj-judge/src/user_claim.rs:159-187 | the outer loop does so for every key and adds the counts |
| `UserClaims.ClaimStore.constructor` | noj-judge/src/user_claim.rs:37-42 | no claims |
| `UserClaims.ClaimStore.Wait` | noj-judge/src/user_claim.rs:99-100 | keys past their time-to-live disappear |
| `UserClaims.ClaimStore.TryClaimUser` | noj-judge/src/user_claim.rs:67-112 | expired claims of that user go, and a claim is stored only if none is left; other users are untouched |
| `UserClaims.ClaimStore.ReleaseUser` | noj-judge/src/user_claim.rs:118-136 | removes one member of one user |
| `UserClaims.ClaimStore.PurgeInstanceClaims` | noj-judge/src/user_claim.rs:151-188 | over all users exactly the instance's members go, and the result is their number |
| `CommentMasking.SkipLine` | scripts/verify-compile-safe-imports.ts:64-70 | blanks a line comment up to its newline |
| `CommentMasking.SkipBlock` | scripts/verify-compile-safe-imports.ts:71-83 | blanks a block comment, keeping newlines, to its end or the text's |
| `CommentMasking.SkipString` | scripts/verify-compile-safe-imports.ts:84-98 | steps over a string with its escapes |
| `CommentMasking.MaskComments` | scripts/verify-compile-safe-imports.ts:58-101 | the in-place loops compute the masking that an independent reading of the text, character by character, defines |
| `CommentMasking.NoCommentsLeft` | scripts/verify-compile-safe-imports.ts:58-101 | the output contains no comment, whatever was unterminated in the input |
| `CommentMasking.MaskingIsIdempotent` | scripts/verify-compile-safe-imports.ts:58-101 | masking twice is masking once |
| `CommentMasking.StructureIsKept` | scripts/verify-compile-safe-imports.ts:58-101 | newlines stay where they are and none appear; a character is in a string before exactly when it is after, and is unchanged |
| `WrittenSource.WrittenIsMasked` | scripts/verify-compile-safe-imports.ts:58-101 | a text written from code, literals and comments, the last perhaps never closed, comes out with exactly its comments blank, newlines aside, and every other character kept |
| `SqlSplitting.SplitSqlStatements` | scripts/check-migration-safety.ts:42-73 | the loop computes the recursive splitting |
| `SqlSplitting.SplitUndoesJoin` | scripts/check-migration-safety.ts:42-73 | pieces without a top-level semicolon come back trimmed, blank ones dropped; the last may leave a quote open |
| `SqlSplitting.SplitJoinRoundTrip` | scripts/check-migration-safety.ts:42-73 | for trimmed non-empty statements the round trip is exact |
| `SqlSplitting.SplitAtFirstCut` | scripts/check-migration-safety.ts:42-73 | on any text the first statement is the trimmed text up to the first top-level semicolon |
| `SqlSplitting.OutputsAreStatements` | scripts/check-migration-safety.ts:42-73 | on any text every output is trimmed, non-empty and without a top-level semicolon |
| `SqlSplitting.SplittingIsStable` | scripts/check-migration-safety.ts:42-73 | on any text, rejoining the statements and splitting again gives the same statements |
| `SqlSplitting.WrittenIsClosed` | scripts/check-migration-safety.ts:42-73 | statements built from code, escaped literals and dollar-quoted bodies meet the condition of the round trip |
| `SqlSplitting.WrittenFileRoundTrip` | scripts/check-migration-safety.ts:42-73 | so a file of such statements is split into exactly them |

## Left out

- Redis, HTTP, PostgreSQL, Docker, JSON and process plumbing: a script is one atomic step. Commands that fail without a crash are modelled where the code goes on after them: result pushes, acknowledgements and the two commands on a malformed message.
- Tokens, tickets and request ids are natural numbers whose order stands for the byte order of the strings; only ties in the turn set and in the windows depend on it.
- Integers are unbounded; Lua's doubles are exact below 2^53 and the client's 64-bit additions saturate as in `Scheduler.SaturatingAdd`.
- Demand kinds outside the five known ones, which the script refuses because their limit is 0, cannot be written down in the model.
- The time-to-live of the memory samples' key, which is longer than a sample's own. `ThrottleHints` says why the throttle's keys may expire; `ThrottleRuns` lets them live.
- The throttle's window is positive; a provider with both limits 0, for which the client never calls the script, is not modelled.
- ProviderSlots.AcquireProviderSlot: nothing exact is said of a caller whose first answer is a rank, or whose wait changes because another client corrects or gives back a slot. A disconnecting client takes the same way out as one that times out.
- TaskDelivery.StepIsSound: retry (`noj-judge/src/judge/retry.rs`) and the sweeper are single moves from processing back to the queue; the retry counter and its limit are not modelled.
- TaskDelivery.NoTaskIsLost: messages are told apart by their content, as the list commands do; `NoCopyIsLost` counts equal ones, but for the platform-error retry, which merges them.
- TaskConservation.EachCopyIsAnsweredOnce: a command whose confirmation is lost may deliver a second result, which the repository accepts; those runs are `TaskDelivery.NoCopyIsLost`'s.
- TaskQueues.Broker.TryPullTaskPriority: the probes of one call see one state of the lists; `PriorityRotation` allows each probe to find its own.
- UserClaims.AtMostOneEvaluation: is about one claim key; keys of different users do not interact, as the frame conditions of `UserClaims.ClaimStore` say.
- UserClaims.ClaimStore.PurgeInstanceClaims: the scan sees the keys as they are when it starts; claims of the instance itself cannot appear meanwhile because it is not running yet.
- QuotaRuns.QuotaIsConserved: each call is settled at most once, which is up to the route; cost is taken in the store's integers; limits are fixed per key during a run; a script runs at the instant its stamp was taken.
- QuotaKeys.RateKeys: the address is taken as already trimmed, and a minute's text as given; `QuotaRates` assumes that calls which carry it fall within one minute.
- The replay of fallback files at start-up.
- `ActiveUserGuard`'s local bookkeeping, `next_pool_admission`'s round robin over pools and the drain at shutdown: each is a single guarded step without an invariant of its own.
- CommentMasking.MaskComments: characters are code points; where the source indexes UTF-16 code units, a masked character beyond the basic plane becomes two spaces. The same goes for `SqlSplitting`, which blanks nothing.
- Prometheus counters, log rendering and configuration parsing.
- `readArgument`, `isLiteralSpecifier`, the statement predicates of the migration gate and all gates that rest on regular expressions.
