# Verified models of the collection backend

Dafny models of the stateful protocols of the collection backend, with machine-checked proofs
of what they keep. One file per component:

| file | what it models |
|---|---|
| `DependencyWaves.dfy`, `MiniflowModel.dfy`, `MiniflowRunner.dfy` | MiniFlow: workflow validation, wave-by-wave order, retries, circuit breaker, poison propagation |
| `AcquisitionLease.dfy`, `AcquisitionSplitService.dfy` | the leased execution row: claim, heartbeat, sweep, cancel, fail and finish, alone, interleaved and split |
| `ControlSensors.dfy`, `ControlLedger.dfy`, `ControlActuator.dfy`, `ControlOutcomes.dfy`, `ControlCycle.dfy` | the control cycle: sensor row to state to suggestion, evidence ledger, execution gate, actuator, judgement, whole ticks |
| `LocalPool.dfy`, `RedisLeases.dfy` | the two browser pools |
| `ImageJob.dfy` | the image generation worker under crashes and redelivery |
| `AgentControl.dfy`, `AgentControlSplit.dfy` | proposals that are confirmed once, atomically and with check and write apart |
| `LexicalOrder.dfy`, `CatalogSchema.dfy`, `CapabilityCatalog.dfy` | the capability ledger's validator and its canonical projection |
| `Scheduler.dfy` | the watermark scheduler and the executor's in-flight tables |
| `ProviderFailover.dfy` | provider failover with cooldowns |
| `ReverseChannel.dfy` | the reverse channel's request tables |
| `RuntimeEvents.dfy` | agent-runtime event streams and the edge that forwards them |
| `Common.dfy`, `Decimal.dfy` | option and result types, decimal numerals |

How the models are built. Code that changes state is a class whose methods update its fields
and are proved equal to a specification function on values (`View()` gives the value); the
theorems are about those functions. Protocols with several parties are step systems, and a
theorem about them holds for every finite run: every interleaving, every crash point, every
sequence of ticks. What a component cannot see (sensor readings, what a step's callable does,
the sidecar's answers, the clock) is an arbitrary parameter of the step.

Assumptions, all of them visible as parameters or preconditions:

- Acquisition: each session block is one atomic step. The finish is a read, a check and a
  write by primary key, not a compare-and-set; a second model splits it in two and shows when
  the fence is lost, and a third does the same for cancelling and queueing, whose writes carry
  the columns that differ from what was read. Lease ids are globally fresh.
- Control cycle: rows written during a tick carry a time at or after the tick's `now`; a tick
  commits or rolls back as a whole. When two ledger rows have the same time the later written
  one counts as the latest.
- Local pool: a getter finishes or is cancelled, atomically; any finished getter may win.
- Image job: deliveries of one job do not overlap; the sidecar's output list does not change
  once its item is completed.
- Agent Control: one confirmation is one atomic step apart from the commit in its middle;
  proposal ids are fresh. A second model splits it into check and write: the write carries the
  columns that differ from what was loaded, a changed row gets a later time and a deleted one
  does not come back.
- Scheduler: the clock does not go backwards. Reverse channel: no request id is reused while a
  call of its kind has it (exactly what is needed, `ReverseChannel.StartKeepsInvIff`).

## Where the code differs from what its documentation or names promise

Each is proved, with the exact condition where there is one.

- "In advisory mode or with the kill switch a tick never mutates a source" (cycle docstring):
  auto-resume is not gated, so it does exactly when a pause has expired
  (`ControlCycle.RestrainedTickMutatesIff`); without a pause to begin with it never does
  (`ControlCycle.RestrainedRunMutatesNothing`).
- The gate looks up evidence under the resolved action name while suggestions are recorded
  under the suggested one. Suggestions with an alias never collect evidence, so automatic mode
  never pauses a source (`ControlCycle.NoRunPauses`).
- Aggregation never fills the ODP readings, so no reading it builds is ever HEALTHY or
  BACKPRESSURED (`ControlSensors.AggregatedIsNeverHealthy`).
- "Increase interval" narrows a step schedule whose step is above the maximum, and with a factor
  below 1 most others (`ControlActuator.WideningNeverNarrowsIff`).
- Auto-resumes count against the hourly cap but do not ask it (`ControlCycle.TickExceedsCapIff`):
  any number may fall in one hour (`ControlCycle.ResumesAreNotCapped`). The pauses they use up
  come from outside, since no tick makes one (`ControlCycle.ResumesComeFromPauses`).
- An unrouted or anonymous acquire of the local pool that finds d getters done loses d - 1
  tokens, and one that is cancelled loses what its getters got or get later: nobody cancels them
  (`LocalPool.NothingLostIff`). One cancelled acquire can drain the whole pool
  (`LocalPool.CancelledAcquireDrainsThePool`). A lost endpoint is unavailable until it is removed
  (`LocalPool.LostUntilRemoved`, `LocalPool.RemovalHeals`). Removing an endpoint keeps exclusion
  exactly when no client is busy with it (`LocalPool.RemovalSafeIff`).
- Endpoints of the Redis pool that differ in separators alone exclude each other
  (`RedisLeases.KeysCollideIff`).
- A worker can finish a row it no longer holds, because the finish does not compare again
  (`AcquisitionSplitFinish.SplitFinishFencedIff`); nor do cancelling and queueing
  (`AcquisitionSplitService.SplitCancelIff`, `AcquisitionSplitService.SplitQueueIff`). Agent
  Control overwrites an edit between its version check and its write
  (`AgentControlSplit.SplitLandsIff`).
- A missing snapshot overwrites a succeeded image job and its outputs
  (`ImageJob.TerminalKeptIff`); the image idempotency identity is shared by another attempt
  exactly for ids with its separator inside (`ImageJob.IdentityUniqueIff`).
- The operations inbox can reopen a proposal that already took effect. It takes effect again
  exactly when its effect left the target's recorded version, as every task does
  (`AgentControl.ReopenedTakesEffectIff`, `AgentControl.ReopeningRepeats`).
- A cron expression that has run out of fire times, or never had any, makes every tick fail at
  it: what comes before it in the list is dispatched again and again, what comes after never
  (`Scheduler.ExactlyOnceIff`, `Scheduler.ExhaustedRepeats`), and its last fire is never
  dispatched for (`Scheduler.LastFireIsLost`).
- "Exactly one terminal event, last" fails for pi when something raises on the way: a line
  over 65536 bytes, one that is JSON but not an object, one whose assistantMessageEvent is not
  an object, or one the parser fails on otherwise; a text that is not a string, in a run that
  exits well; the set-up, anything between `started` and the first read (writing the request, a
  timeout that is too large), or the stopping of a late process; and when the deadline passes
  while an event is being forwarded (`RuntimeEvents.PiContractIff`). The edge still answers,
  except in this last case: the deadline then cancels the edge's own handler
  (`RuntimeEvents.PiAnsweredIff`). MiniFlow fails likewise when building its request raises
  something else than a TypeError or ValueError (`RuntimeEvents.MiniflowContractIff`).
- A reverse-channel connection is removed by agent, not by socket, so a late close, or the
  close of a refused socket, drops the agent's present connection and fails its tasks
  (`ReverseChannel.CloseSparesConnectionsIff`, `ReverseChannel.CloseSparesTasksIff`).

## Model

| member | source | states |
|---|---|---|
| DependencyWaves.PeeledIffChainsShort | backend/miniflow/model.py:57-67 | a step is done after k waves if and only if no dependency chain ending in it has more than k steps |
| DependencyWaves.AcyclicIffAllPeeled | backend/miniflow/model.py:52-59 | the waves reach every step if and only if no step depends on itself through a chain |
| MiniflowModel.Ordered | backend/miniflow/model.py:39-69 | succeeds exactly when names are unique, dependencies are known and the graph is acyclic, with the matching error otherwise; the result is Order(steps) |
| MiniflowModel.OrderIsSortedPermutation | backend/miniflow/model.py:39-69 | Order(steps) is the permutation of the steps sorted by (longest dependency chain, declaration position), and every dependency comes before its dependents |
| MiniflowModel.DrainSorter | backend/miniflow/model.py:61-68 | the loop over ready sets yields exactly the waves in order, each in declaration order |
| MiniflowRunner.ExecuteStep | backend/miniflow/runner.py:52-96 | the step ends as Ends says, for any breaker and attempt limit: outcome, attempts, audit rows 1..n in order, delays slept and the breaker's counter afterwards |
| MiniflowRunner.StepAuditRows | backend/miniflow/runner.py:65-94 | the audit of a step has one row per attempt, numbered from 1; every row before the last is transient with its attempt's message, and the last says how the step ended |
| MiniflowRunner.NoAttemptAudit | backend/miniflow/runner.py:60-63 | without an attempt the audit is one row numbered 0 for an open breaker, and empty if no attempt is allowed |
| MiniflowRunner.EndsIsFunctional | backend/miniflow/runner.py:52-96 | outcome and number of attempts are determined by the callable, the allowance and the limit |
| MiniflowRunner.FreshStepClosedForm | backend/miniflow/runner.py:36-96 | with threshold b >= 1 and m >= 1 attempts: at most min(b, m) attempts; all-transient steps use exactly min(b, m), ending CIRCUIT_OPEN if b <= m and CRITICAL_FAILURE otherwise |
| MiniflowRunner.NoBreakerClosedForm | backend/miniflow/runner.py:65-96 | without a breaker only the limit on attempts ends a step whose attempts all fail transiently |
| MiniflowRunner.DelaysSum | backend/miniflow/runner.py:84-88 | the delays before attempt n add up to base * (2^(n-1) - 1) |
| MiniflowRunner.RunWorkflow | backend/miniflow/runner.py:99-141 | rejects an invalid workflow; otherwise the result is the run of the ordered steps and the audit log gains the rows of the executed steps in order |
| MiniflowRunner.AuditInBlocks | backend/miniflow/runner.py:112-141 | the log of a run is cut into one block per executed step, in the order of execution, and each is that step's audit |
| MiniflowRunner.RunReports | backend/miniflow/runner.py:112-141 | every run splits the order into executed, skipped and an unreached suffix; a step runs only if all dependencies ended well, a reached step is skipped exactly when an open circuit lies among its transitive dependencies, and nothing runs after a critical failure |
| MiniflowRunner.SuccessMeansAllRan | backend/miniflow/runner.py:28-33 | success holds if and only if every step of the workflow ran and ended well, and then nothing was skipped or left unreached |
| AcquisitionLease.ExecutionTable.Claim | backend/acquisition/runner.py:254-274 | one conditional update: matches exactly a queued row and makes it running under the new owner with a 30s lease |
| AcquisitionLease.ExecutionTable.Heartbeat | backend/acquisition/runner.py:201-240 | extends the lease exactly while the row is running under this owner |
| AcquisitionLease.ExecutionTable.FailExecution | backend/acquisition/runner.py:175-198 | writes FAILED and clears the lease exactly while the row is running under this owner |
| AcquisitionLease.ExecutionTable.Finish | backend/acquisition/runner.py:411-516 | loads, checks ownership and writes the verdict; any other row is left alone |
| AcquisitionLease.ExecutionTable.Cancel | backend/services/acquisition_service.py:89-100 | cancels a row that accepts it and clears its lease, leaves a terminal one alone |
| AcquisitionLease.ExecutionTable.Recover | backend/acquisition/runner.py:65-149 | requeues exactly the accepted rows and the running ones whose lease expired, and returns the selected ids in creation order |
| AcquisitionLease.ColumnsWritten | backend/acquisition/runner.py:175-274 | every column that claim, heartbeat, verdict, cancellation and queueing leave, and the rows they leave alone |
| AcquisitionLease.RecoveryIs | backend/acquisition/runner.py:80-149 | a pass selects accepted rows, running ones whose lease is over and, when asked to, queued ones; all but the queued ones are put back into the queue, cleared |
| AcquisitionLease.SelectedIdsAre | backend/acquisition/runner.py:80-112 | the ids returned are exactly those of accepted rows, of expired running rows and, when asked for, of queued rows |
| AcquisitionLease.SelectedIdsInOrder | backend/acquisition/runner.py:80-112 | they come in creation order, each once |
| AcquisitionRuns.TerminalAbsorbing | backend/models/acquisition.py:10-30 | over every interleaving SUCCEEDED, FAILED and CANCELLED rows never change again |
| AcquisitionRuns.OwnerNeverReturns | backend/acquisition/runner.py:113-149 | an owner id that was cleared from the row never owns it again |
| AcquisitionRuns.TerminalWriteIsFenced | backend/acquisition/runner.py:411-418 | a row becomes SUCCEEDED or FAILED only by the finish of the worker that has held the current lease without a break since its claim, with that worker's verdict |
| AcquisitionRuns.LateWorkerIsHarmless | backend/acquisition/runner.py:182-235 | a worker's heartbeat or verdict takes effect exactly while it holds the lease |
| AcquisitionRuns.ClaimsBounded | backend/acquisition/runner.py:113-149 | claims are at most 1 + requeues, and exactly that while a claim is unanswered or answered |
| AcquisitionRuns.HeartbeatIsLastContact | backend/acquisition/runner.py:217-235 | a running row's heartbeat is the time of the last effective claim or heartbeat, and the row has not changed since |
| AcquisitionRuns.RequeueOnlyAfterSilence | backend/acquisition/runner.py:113-149 | a running row loses its owner only by its own worker, a cancellation, or a sweep at least 30s after the last contact |
| AcquisitionSplitFinish.SplitFinishFencedIff | backend/acquisition/runner.py:411-516 | with read and write apart, a worker that passed the check still holds the lease at its write if and only if no cancellation, sweep after expiry or other write came in between |
| AcquisitionSplitFinish.SplitFinishLosesFence | backend/acquisition/runner.py:411-516 | two runs in which the fence is lost: a cancelled row turns SUCCEEDED, and a row held by one worker is finished by another |
| AcquisitionSplitService.SplitCancelIff | backend/services/acquisition_service.py:89-100 | with read and write apart over any run, cancel does what the atomic one would at its write if and only if it saw a terminal row, or the row is now accepted, queued or cancelled, or running as it was when seen |
| AcquisitionSplitService.SplitQueueIff | backend/services/acquisition_service.py:103-111 | with read and write apart, queueing does what the atomic one would if and only if a row it saw accepted is still accepted or queued |
| AcquisitionSplitService.SplitServiceBreaks | backend/services/acquisition_service.py:89-111 | three runs outside these conditions: a succeeded row turns CANCELLED, a cancelled one QUEUED, and a held row is claimed by a second worker |
| ControlSensors.SummarizeWindow | backend/control/aggregation.py:236-267 | the loop computes the trend of the window: size, leading zero streak, average rate, rate-limited runs |
| ControlSensors.ZeroStreakIsLongestPrefix | backend/control/aggregation.py:236-267 | the streak is the longest newest-first prefix without accepted records |
| ControlSensors.LimitedRunsAre | backend/control/aggregation.py:236-267 | the window counts exactly the runs with a rate limit |
| ControlSensors.RatesAddUp | backend/control/aggregation.py:236-267 | the summed error rate of two windows in a row is the sum of theirs, and that of one run its own rate |
| ControlSensors.TrendIs | backend/control/aggregation.py:216-267 | a window's trend has its size, streak and limited runs, and the mean of its rates |
| ControlSensors.MeasuredFromRow | backend/control/measurements.py:53-90 | the error rate is the rejected share of what was seen, 0 if nothing was; a stored row fills no pipe reading |
| ControlSensors.MeasuredFromRun | backend/control/aggregation.py:95-215 | without a row, what was collected and neither stored nor skipped counts as rejected |
| ControlSensors.CoverageIs | backend/control/coverage.py:69-93 | which sensors a reading shows, from which of its fields are there |
| ControlSensors.ConfidenceIs | backend/control/coverage.py:69-118 | confidence is high exactly with all sensors, and low exactly without the pipe, without error kinds, or without any two |
| ControlSensors.ConfidenceIff | backend/control/coverage.py:69-118 | from a reading: high exactly with a pipe reading, a time quality and a freshness lag, low exactly without a pipe reading or without a time quality |
| ControlSensors.EvaluatesTo | backend/control/evaluator.py:94-185 | each of the states if and only if its finding is there and none of higher precedence; healthy and unknown differ by the sensors |
| ControlSensors.SuggestionsResolve | backend/control/actuator.py:44-71 | which states suggest an action, and which of three actions a suggestion is executed as |
| ControlSensors.AggregatedIsNeverHealthy | backend/control/evaluator.py:144-185 | no reading that aggregation builds evaluates to HEALTHY, BACKPRESSURED or PAUSED, and UNKNOWN comes out exactly when no rule before coverage fires |
| ControlLedger.TotalsAddUp | backend/control/report.py:17-37 | total = pending + recovered + persisted + insufficient for any rows whose outcomes and times agree |
| ControlLedger.EveryBucketAddsUp | backend/control/report.py:17-37 | the same in every (state, action) bucket |
| ControlLedger.BucketByStateAction | backend/control/report.py:40-49 | one pass puts every row into the bucket of its key, in ledger order, and makes no empty bucket; the buckets are those the gate reads |
| ControlLedger.GateAnswers | backend/control/gate.py:62-163 | the gate answers by the first of its conditions that does not hold, each stated over the ledger's rows |
| ControlLedger.GateAllowsIff | backend/control/gate.py:62-163 | it allows an execution if and only if it runs unkilled in automatic mode, enough rows of the (state, action) are judged, enough of those recovered or persisted have recovered, every execution of the (source, action) is a cooldown old, fewer than the cap were executed in the last hour, and none of (source, action, state) is unjudged |
| ControlLedger.GatedKeepsGoverned | backend/control/gate.py:101-163 | a row the gate allowed keeps all three limits: hourly cap in every one-hour window, cooldown between executions of one (source, action), one unjudged row per (source, action, state) |
| ControlLedger.UngatedKeepsGoverned | backend/control/cycle.py:170-191 | advisory and auto-resume rows keep all three limits |
| ControlLedger.GateAllowsOnlyUnaliased | backend/control/gate.py:62-99 | from explained rows the gate allows only (rate_limited, increase_interval) and (schema_drift or dead or degraded, require_review) |
| ControlActuator.ParsePrintRoundTrip | backend/control/actuator.py:87-92 | every printed step expression parses back to its number |
| ControlActuator.WideningNeverNarrowsIff | backend/control/actuator.py:120-128 | for every factor the new step is at least the old one if and only if the old one is within the maximum and the factor takes less than half a minute of it, or just half a minute from an even step, or the old one is a single minute |
| ControlActuator.WideningCanNarrow | backend/config.py:237-238 | with the default settings a two-day step is cut to one day |
| ControlCycle.WideningKeepsStepSchedules | backend/control/actuator.py:115-133 | with a maximum of at least 1, an enabled step schedule of the source becomes the step schedule with the widened number, and every other schedule stays as it was |
| ControlCycle.RecordingAgainAddsNothing | backend/control/ledger.py:20-24 | while its rows are younger than the window, recording the same suggestions again adds nothing |
| ControlCycle.RecordedUnlessSuppressed | backend/control/ledger.py:47-98 | a suggestion is appended as one unexecuted row with its source, state and action, unless the latest row of source and action has the same state and is younger than the window; no order of the scan is named |
| ControlOutcomes.JudgedOnce | backend/control/outcomes.py:78-185 | a pass fills in outcome and time of pending rows together and changes nothing else |
| ControlOutcomes.NeverPersisted | backend/control/outcomes.py:139-185 | a blocked_by_odp, healthy, backpressured or paused row is never judged persisted |
| ControlOutcomes.VerdictIs | backend/control/outcomes.py:96-185 | a pending row is judged once it is old enough and has a later reading or is stale: recovered if and only if the readings show another state, persisted if and only if they show the same, insufficient without any |
| ControlOutcomes.CountedExplains | backend/control/outcomes.py:96-185 | evaluated + still_pending is what was pending at entry, evaluated is the sum of the verdicts, and each count is what the ledger's totals gained |
| ControlCycle.ControlStore.RecordAdvisoryActions | backend/control/ledger.py:47-113 | appends one row per suggestion that does not repeat the latest row of its (source, action) within the window, and returns how many |
| ControlCycle.ControlStore.ApplyIncreaseInterval | backend/control/actuator.py:95-133 | widens every enabled step schedule of the source and touches no other |
| ControlCycle.ControlStore.ExecuteAction | backend/control/actuator.py:166-205 | performs exactly the resolved action on schedules or on the one source |
| ControlCycle.AppliedIs | backend/control/actuator.py:166-205 | a pause switches the one source off with its term, a review sets its flag, a widening touches only schedules |
| ControlCycle.ControlStore.AutoResume | backend/control/actuator.py:208-241 | re-enables exactly the sources whose pause expired and appends one resume row for each, in order |
| ControlCycle.ControlStore.EvaluatePendingOutcomes | backend/control/outcomes.py:50-185 | the loop judges every row as JudgedRow says and counts the verdicts |
| ControlCycle.ControlStore.RunControlCycleOnce | backend/control/cycle.py:69-195 | the whole tick in order; executions + blocked = suggestions seen, and the reported executions are exactly the gated rows added to the ledger |
| ControlCycle.ControlStore.RunTick | backend/control/cycle_task.py:28-47 | commits the whole tick or leaves the database as it was |
| ControlCycle.RunKeeps | backend/control/cycle.py:69-195 | over every sequence of ticks from a compliant ledger: hourly cap, cooldown spacing, one in flight, outcomes with their times, no blocked_by_odp row persisted, and only the three kinds of executed rows |
| ControlCycle.EmptyLedgerComplies | backend/control/ledger.py:1-24 | the empty ledger complies |
| ControlCycle.RunExtends | backend/control/ledger.py:47-158 | over every sequence of ticks the ledger only grows at its end and each row is judged at most once |
| ControlCycle.RestrainedTickMutatesIff | backend/control/cycle.py:23-28 | in advisory mode or under the kill switch schedules never change, and sources change if and only if a pause has expired, which is then resumed |
| ControlCycle.NoTickPauses | backend/control/actuator.py:44-71 | from a compliant ledger no tick disables a source or sets a pause |
| ControlCycle.NoRunPauses | backend/control/actuator.py:44-71 | nor does any sequence of ticks |
| ControlCycle.AmidKeeps | backend/control/service.py:219-243 | all that RunKeeps says of the ledger holds when edits of sources and schedules and the control-state endpoint's advisory rows come between the ticks |
| ControlCycle.NoTickAmidPauses | backend/control/actuator.py:44-71 | and still no tick switches a source off or sets a pause |
| ControlCycle.RestrainedRunMutatesNothing | backend/control/cycle.py:23-28 | from sources without a pause, no sequence of ticks in advisory mode or under the kill switch changes a source or a schedule or writes a resume row |
| ControlCycle.TickExceedsCapIff | backend/control/cycle.py:166-191 | a tick leaves more executions in its hour than the cap if and only if those after its decisions and the expired pauses together exceed it; for a restrained tick if and only if the count before it and the expired pauses do, which for any other is enough |
| ControlCycle.ResumesAreNotCapped | backend/control/actuator.py:208-241 | for every n, one tick over n sources with expired pauses writes n resume rows in one hour, whatever the cap; once n reaches the cap the gate refuses every action |
| ControlCycle.ResumesComeFromPauses | backend/control/actuator.py:208-241 | over every sequence of ticks resume rows and pauses still set add up to what they were: each resume uses up one pause, and no tick makes one |
| ControlCycle.ResumedIs | backend/control/actuator.py:208-241 | a source whose pause has run out is enabled and loses its pause, and every other source stays as it is |
| LocalPool.LocalBrowserPool.constructor | backend/browser_pool.py:49-69 | one full slot per distinct endpoint, profiles authenticated, total counting repetitions |
| LocalPool.FreshIsFull | backend/browser_pool.py:49-69 | the pool as constructed has exactly the given endpoints, each with a full queue of its own, however often it is repeated |
| LocalPool.CandidatesFit | backend/browser_pool.py:83-144 | an acquire waits on at least one slot of the pool, all candidates have a required profile, and it is refused exactly when no named or anonymous endpoint has it |
| LocalPool.LocalBrowserPool.FinishRace | backend/browser_pool.py:117-134 | one finished getter wins and the others' tokens are dropped; a winner of the wrong profile is put back |
| LocalPool.LocalBrowserPool.Release | backend/browser_pool.py:107-111 | puts the token back, or fails when the slot is gone or occupied |
| LocalPool.PutBackIs | backend/browser_pool.py:107-111 | a token goes back into its endpoint's slot unless that is gone or has one, each with its own failure, and taking it again undoes it |
| LocalPool.LocalBrowserPool.AddEndpoint | backend/browser_pool.py:241-254 | adds a full slot unless the endpoint is known |
| LocalPool.LocalBrowserPool.RemoveEndpoint | backend/browser_pool.py:256-267 | drops slot and profile of a known endpoint |
| LocalPool.AddedIsAvailable | backend/browser_pool.py:241-254 | an added endpoint is available and authenticated unless it was said to be anonymous before; nothing else changes |
| LocalPool.RemovedIsForgotten | backend/browser_pool.py:256-267 | a removed endpoint is gone and counted out, and authenticated when it is added again |
| LocalPool.RunConserves | backend/browser_pool.py:76-174 | over every interleaving, cancelled acquires included, in which no endpoint is removed while a client is busy with it: slot + hands + lost = 1 token for every endpoint of the pool and 0 for others |
| LocalPool.OneHolderAndSafeRelease | backend/browser_pool.py:107-111 | over the same interleavings no endpoint has two holders, and no client's release fails |
| LocalPool.RemovalSafeIff | backend/browser_pool.py:256-267 | removing an endpoint keeps exclusion and safe release over every later run if and only if no client holds it, has got its token or can still get it from the removed queue; getters of cancelled races do not matter |
| LocalPool.LossPerStep | backend/browser_pool.py:117-130 | a race settled with d getters done loses d - 1 tokens and one cancelled with d done all d; each of its getters that finishes later on a present slot loses one more; removing an endpoint forgets its loss; nothing else changes what is lost |
| LocalPool.LossesAddUp | backend/browser_pool.py:153-167 | over every run what is lost at the end, plus what removals replaced, is what was lost before plus what settled races, cancelled races and their getters lost |
| LocalPool.NothingLostIff | backend/browser_pool.py:113-167 | nothing is lost at any point of a run if and only if every settled race had exactly one getter done, every cancelled one none, and no getter of a cancelled race finished on a present slot |
| LocalPool.CancelledRaceDrains | backend/browser_pool.py:117-123 | in every state whose other clients hold what they have, cancelling a race can lose all its candidates: once their holders give them back nobody has them or can get them |
| LocalPool.CancelledAcquireDrainsThePool | backend/browser_pool.py:153-159 | so one cancelled unrouted acquire can drain the whole pool |
| LocalPool.LostUntilRemoved | backend/browser_pool.py:153-167 | until it is removed, a lost endpoint stays in the pool with an empty slot and no client has or can get it |
| LocalPool.RemovalHeals | backend/browser_pool.py:241-267 | a lost endpoint can always be removed safely, and adding it again makes it available |
| LocalPool.RemoveWhileHeldBreaks | backend/browser_pool.py:256-267 | removing a held endpoint and adding it again gives it two holders, and the second release overflows |
| RedisLeases.OwnerNamesDiffer | backend/browser_pool.py:381-382 | owner strings of different fences differ, whatever the UUIDs |
| RedisLeases.LeaseStore.TryCandidates | backend/browser_pool.py:374-396 | an undisturbed pass takes the first free candidate and no other, and draws a fence for every candidate it looked at |
| RedisLeases.LeaseStore.Renew | backend/browser_pool.py:410-418 | extends the lease exactly when the stored owner is this one |
| RedisLeases.LeaseStore.Release | backend/browser_pool.py:431-438 | deletes the lease exactly when the stored owner is this one |
| RedisLeases.LeaseLasts | backend/browser_pool.py:382-418 | a claim of a free key or a renewal by its owner holds it for 30 seconds from then and not longer |
| RedisLeases.ReleaseFrees | backend/browser_pool.py:431-438 | a release by its owner frees the key for whoever claims it next |
| RedisLeases.CommandsStayInPlace | backend/browser_pool.py:376-438 | no command touches another key, a claim of a held key changes nothing, and a draw counts its own fence up by one |
| RedisLeases.OneConfirmedHolder | backend/browser_pool.py:376-422 | over every interleaving and from any store, a client that believes it holds an endpoint is the stored owner if and only if it was confirmed within the lease's lifetime, and no endpoint has two such clients |
| RedisLeases.FormerOwnerIsHarmless | backend/browser_pool.py:410-438 | a renewal or release by a former owner changes nothing in the store |
| RedisLeases.LostNameNeverReturns | backend/browser_pool.py:381-388 | an owner string that is no longer stored is never stored again |
| RedisLeases.OustedHolderIsGone | backend/browser_pool.py:401-422 | a holder that is not the stored owner has lost its name for good |
| RedisLeases.TwoBelievers | backend/browser_pool.py:401-422 | without renewal in time a former holder and a new owner both believe they hold the endpoint |
| RedisLeases.KeysCollideIff | backend/browser_pool.py:294-306 | two endpoints share one key if and only if they differ in separators alone ("://", ":", "/" and "_" count as the same separator) |
| ImageJob.ImageNames | backend/image_studio/adapter.py:226-240 | the names of the outputs, each once, in the order of first mention |
| ImageJob.NameIs | backend/image_studio/adapter.py:226-240 | an output's name is the direct one, or without a direct one the nested one, and never empty |
| ImageJob.ImageWorker.Submit | backend/image_studio/job_runner.py:146-160 | enqueues only without a recorded item, and answers every exception by a blocked result that clears the fields |
| ImageJob.ImageWorker.IngestOutputs | backend/image_studio/job_runner.py:245-312 | checkpoints first, then imports the missing outputs in order up to the first failure |
| ImageJob.ImageWorker.Execute | backend/image_studio/worker_runtime.py:43-203 | performs exactly the effects of the delivery, in order, and ends with the job that the last commit holds |
| ImageJob.SnapshotIsMissing | backend/image_studio/worker_runtime.py:117-133 | without its snapshot any job fails and is cleared, whatever it holds |
| ImageJob.SubmissionIsRecorded | backend/image_studio/adapter.py:92-125 | an answered submission enqueues once, commits SUBMITTED with the answer's item, batch and session, and schedules the poll |
| ImageJob.SubmissionIsRefused | backend/image_studio/worker_runtime.py:96-203 | any other blocks the job and clears its fields; the sidecar was asked only if scope and graph were fine |
| ImageJob.RecordedItemIsKept | backend/image_studio/adapter.py:102-103 | a job to be submitted that has an item is not enqueued but polled, or blocked and cleared if the snapshot is not its own |
| ImageJob.AnswerIsRecorded | backend/image_studio/job_runner.py:162-209 | every answer of the sidecar but a completion sets the matching status and error and nothing else, and the job is polled again exactly while its item is queued or running |
| ImageJob.NothingToAskFor | backend/image_studio/job_runner.py:162-209 | a job under way without an item is blocked |
| ImageJob.CompletedWithoutOutputs | backend/image_studio/job_runner.py:245-312 | a completed item without outputs, or with fewer than are stored, fails the job as it is |
| ImageJob.CompletedIsIngested | backend/image_studio/job_runner.py:245-312 | a completed item: the outputs that are not stored yet are imported and stored in their places up to the first that fails; with all of them the job succeeds and resumes its run |
| ImageJob.OneIdempotencyKey | backend/image_studio/adapter.py:111-113 | over all deliveries and crashes every enqueue carries the job's one key |
| ImageJob.NoSecondEnqueue | backend/image_studio/worker_runtime.py:60-79 | once a queue item id is recorded no later delivery enqueues |
| ImageJob.EnqueuedOnceUnlessCut | backend/image_studio/worker_runtime.py:60-94 | over every sequence of deliveries and crashes a job is enqueued at most once, plus once for each delivery cut before its commit |
| ImageJob.StoredAssetsAreAPrefix | backend/image_studio/job_runner.py:245-312 | stored assets are those imported for the sidecar's first outputs, in order, and for all of them on success |
| ImageJob.ScheduledOnlyAfterCommit | backend/image_studio/worker_runtime.py:83-94 | a poll or resume is scheduled only when the committed job has the matching status, with the committed assets |
| ImageJob.TerminalKeptIff | backend/image_studio/worker_runtime.py:120-133 | a complete delivery keeps a terminal job if and only if the snapshot is there or its loss is already recorded |
| ImageJob.TerminalIsFinal | backend/image_studio/worker_runtime.py:60-81 | with the snapshot in place a terminal job never changes, and only a success is ever resumed |
| ImageJob.NotTerminalMeansProgress | backend/image_studio/worker_runtime.py:60-94 | a complete delivery commits something if and only if the job is not terminal |
| ImageJob.IdentityIsInjective | backend/image_studio/adapter.py:30-38 | if neither id of an attempt contains the separator, no other attempt, whatever its ids, has the same identity |
| ImageJob.IdentityCanCollide | backend/image_studio/adapter.py:36-38 | for every accepted attempt with a separator inside its ids it gives another accepted pair of ids with the same identity |
| ImageJob.IdentityUniqueIff | backend/image_studio/adapter.py:30-38 | among accepted attempts (ids not empty) one has an identity of its own if and only if no separator stands inside its ids, the start of the run and the end of the node excepted |
| AgentControl.NormalisedTwice | backend/control/agent_control.py:143-305 | normalising arguments again changes nothing, and the normalised arguments name the same target |
| AgentControl.AgentControlService.CreateProposal | backend/control/agent_control.py:459-523 | records an open proposal with the previewed arguments and version, or changes nothing |
| AgentControl.RecordedAsAsked | backend/control/agent_control.py:143-368 | a request is accepted if and only if caller and content are in order and its target exists; the one new proposal is open and records the requested target, its version, and exactly the fields that were given, with the values asked for |
| AgentControl.ValuesRead | backend/control/agent_control.py:143-158 | how texts, truth values, null and other values read as ids and as flags |
| AgentControl.ProposalIsRefusedWith | backend/control/agent_control.py:459-472 | a request is refused with 403 for a caller without the right, 404 for a missing target and 400 for nothing to do or a bad expression |
| AgentControl.AgentControlService.ExecuteConfirmed | backend/control/agent_control.py:525-651 | durable store and reply are as Confirmed says, for every refusal, fault and crash point |
| AgentControl.ConfirmedAsAsked | backend/control/agent_control.py:525-651 | whenever a confirmation of a proposal that records a request takes effect, the target holds what the request asked for |
| AgentControl.ConfirmationIsRefusedWith | backend/control/agent_control.py:536-588 | which refusal, with which code, comes first; a refused confirmation leaves no trace |
| AgentControl.ConfirmationEndsWith | backend/control/agent_control.py:590-651 | reply and fate of every other confirmation: a disabled source, an exception and a crash before the commit undo it, a task stays even if its dispatch fails or the process dies, and the proposal is resolved or in progress |
| AgentControl.AllOrNothing | backend/control/agent_control.py:611-643 | without a durable effect the whole prior store is back; with one the proposal is resolved or in progress, never open |
| AgentControl.EffectsAtMostOnce | backend/control/agent_control.py:549-643 | over every mix of events each proposal takes effect at most once plus once per reopening, always with the previewed arguments and at the recorded version |
| AgentControl.ClosedStaysClosed | backend/control/agent_control.py:549-553 | a proposal that is not open has no further effect unless it is reopened |
| AgentControl.TakesEffectIff | backend/control/agent_control.py:536-609 | a confirmation takes effect if and only if it is acceptable, the proposal is open and its target is at the recorded version |
| AgentControl.VersionKeptIff | backend/control/agent_control.py:169-368 | an effect leaves the recorded version if and only if it is a task or gives the target the values it already has |
| AgentControl.ReopenedTakesEffectIff | backend/api/v1/operations_inbox.py:271-277 | a proposal reopened after its effect takes effect again if and only if that effect left the recorded version and the new confirmation is acceptable |
| AgentControl.ReopeningRepeats | backend/api/v1/operations_inbox.py:271-277 | so every task whose proposal is reopened is created a second time by an acceptable confirmation |
| AgentControl.EffectIsAsAnnounced | backend/control/agent_control.py:169-368 | the effect gives the named fields the previewed values and keeps the others |
| AgentControl.OnlyTheTargetChanges | backend/control/agent_control.py:169-368 | nothing but the proposal's target changes |
| AgentControl.OutsideEvents | backend/api/v1/operations_inbox.py:271-277 | closing or reopening a proposal changes its status only; an edit leaves proposals and tasks alone; none of them counts as an effect |
| AgentControlSplit.SplitLandsIff | backend/control/agent_control.py:581-613 | with check and write apart, over every run of edits and other confirmations in between, a confirmation that passed its check takes effect on the recorded version if and only if no step touched its target |
| AgentControlSplit.OnRecordIsAtomic | backend/control/agent_control.py:581-613 | on the recorded version the split write is what the atomic step does |
| AgentControlSplit.WritesIff | backend/control/agent_control.py:581-613 | whatever happened to the target in between, a write with something to write succeeds if and only if the target is still there |
| AgentControlSplit.LastWriterWins | backend/services/schedule_service.py:57-66 | exactly the columns that differ from the recorded ones are written: an edit in between is overwritten there and kept elsewhere |
| AgentControlSplit.LastWriterWinsForProviders | backend/control/agent_control.py:356-371 | the same for a provider: exactly the columns that differ from the recorded ones are written |
| LexicalOrder.LessIff | scripts/generate_capability_catalog.py:484-503 | one string precedes another if and only if it is a proper prefix of it or has the smaller character where they first differ |
| LexicalOrder.IncreasingUnique | scripts/generate_capability_catalog.py:484-503 | a strictly increasing sequence is determined by its members |
| LexicalOrder.SortForgetsOrder | scripts/generate_capability_catalog.py:484-503 | sorting by distinct keys gives the same result for every order of the input |
| CatalogSchema.ValidateGroups | scripts/generate_capability_catalog.py:229-338 | accepts exactly groups that fit, with distinct ids and keys, disjoint aliases and no key that is an alias |
| CatalogSchema.ValidateOperations | scripts/generate_capability_catalog.py:340-404 | accepts exactly operations that fit, with distinct ids and routes and known capabilities |
| CatalogSchema.ValidateWrappers | scripts/generate_capability_catalog.py:406-446 | accepts exactly wrappers that fit, with distinct names and known operations and capabilities |
| CatalogSchema.ValidateMatrix | scripts/generate_capability_catalog.py:195-461 | accepts exactly the valid matrices |
| CatalogSchema.RouteIff | scripts/generate_capability_catalog.py:140-147 | a route starts with exactly one slash, and no backslash and no scheme separator stands at any position of it |
| CatalogSchema.HeaderFitsIff | scripts/generate_capability_catalog.py:203-225 | version, source, count and the closed set of dispositions, without repetition |
| CatalogSchema.GroupFitsIff | scripts/generate_capability_catalog.py:229-338 | what is asked of a group: a note exactly if it is deprecated, provider fields exactly if it is projected as a plugin provider |
| CatalogSchema.ProviderFitsIff | scripts/generate_capability_catalog.py:268-332 | what is asked of a provider: its category is one of its types, its key is no alias of its own, no source is both required and optional |
| CatalogSchema.OperationFitsIff | scripts/generate_capability_catalog.py:340-404 | what is asked of an operation: a capability or a reason, never both, and a capability for the three dispositions that face a user |
| CatalogSchema.WrapperFitsIff | scripts/generate_capability_catalog.py:406-446 | what is asked of a wrapper: one without operation is to be retired |
| CapabilityCatalog.BuildCatalog | scripts/generate_capability_catalog.py:464-508 | a catalog exactly for valid matrices, and it is the projection CatalogOf |
| CapabilityCatalog.EveryLiveGroupIsProjected | scripts/generate_capability_catalog.py:472-501 | in the catalog of a valid matrix every plugin-provider group that is not retired has exactly one provider with its id, which has its fields one by one, its lists sorted without repetition, and its note exactly when it is deprecated |
| CapabilityCatalog.EveryProviderIsAGroup | scripts/generate_capability_catalog.py:472-508 | and every provider comes from such a group |
| CapabilityCatalog.IdsIncrease | scripts/generate_capability_catalog.py:503-506 | the ids are strictly increasing and are those of the providers |
| CapabilityCatalog.KeysAndAliasesApart | scripts/generate_capability_catalog.py:284-338 | in the catalog keys are distinct, alias lists disjoint, and no key is an alias |
| CapabilityCatalog.EachOperationInOneProvider | scripts/generate_capability_catalog.py:468-501 | each operation of a live provider is listed by exactly one provider |
| CapabilityCatalog.ListsItsOwn | scripts/generate_capability_catalog.py:468-484 | a provider lists an operation if and only if the operation declares its capability |
| CapabilityCatalog.OrderDoesNotMatter | scripts/generate_capability_catalog.py:195-508 | acceptance and catalog are the same for every reordering of operations, groups, wrappers and inner lists |
| Scheduler.FiresInWindow | backend/scheduler.py:50-85 | counts the fires in (start, end], 0 for an unparseable expression, and raises exactly if the expression has no fire after the end |
| Scheduler.CountsTelescope | backend/scheduler.py:79-85 | count(a, b) + count(b, c) = count(a, c) |
| Scheduler.DueIff | backend/scheduler.py:115-123 | a schedule is dispatched for a window if and only if it fires in it |
| Scheduler.LocalScheduler.RunTick | backend/scheduler.py:98-151 | one turn: watermark, completed windows and dispatches, with every failure |
| Scheduler.WatermarkMoves | backend/scheduler.py:104-146 | the first tick only sets the watermark; later it moves, and the window is complete, if and only if the schedules can be loaded and none has run out |
| Scheduler.RunTiles | backend/scheduler.py:98-151 | whatever fails, the completed windows tile (first watermark, current watermark] |
| Scheduler.ExactlyOneWindow | backend/scheduler.py:89-97 | every instant since the first watermark lies in exactly one completed window |
| Scheduler.TotalsTelescope | backend/scheduler.py:89-97 | the counts of the windows add up to the count since the first watermark |
| Scheduler.FireCount | backend/scheduler.py:98-151 | over every run the dispatches that stand for one fire are as many as the ticks whose window holds it and that reach the schedule before an expression that has run out |
| Scheduler.ExactlyOnceIff | backend/scheduler.py:98-151 | each fire of an always enabled schedule up to the watermark is dispatched for once, plus once for every tick that holds it and fails behind the schedule; exactly once if and only if there is no such tick |
| Scheduler.EachFireOnce | backend/scheduler.py:98-151 | without expressions that have run out each fire of an always enabled schedule is dispatched for exactly once |
| Scheduler.LastFireIsLost | backend/scheduler.py:79-85 | over every run the last fire of an expression that runs out is never dispatched for |
| Scheduler.ExhaustedRepeats | backend/scheduler.py:79-85 | an expression that has run out makes the schedule before it be dispatched twice for one fire and the one behind it never |
| InFlight.LocalExecutor.DispatchScheduledCollection | backend/executor/local.py:118-138 | starts a run exactly when none of the schedule is in flight, and tracks it |
| InFlight.LocalExecutor.OnDone | backend/executor/local.py:132-138 | drops the entry only if it is still this task's |
| InFlight.DispatchStartsIff | backend/executor/local.py:118-138 | a dispatch starts a run exactly if none of the schedule is running; then one is, and others are as before |
| InFlight.CallbackForgets | backend/executor/local.py:132-138 | a callback drops its run's entry and no other |
| InFlight.RunsNeverOverlap | backend/executor/local.py:118-138 | over every interleaving runs of one schedule never overlap and no callback forgets a run still going |
| InFlight.NothingInFlight | backend/executor/local.py:41-48 | the empty tables comply |
| ProviderFailover.ProviderResolver.ResolveWithFallback | backend/llm/resolver.py:130-186 | stops at the first live candidate that does not fail retryably and returns its value or error; only retryable failures before it set cooldowns; on exhaustion reports tried, cooled and total |
| ProviderFailover.VerdictIs | backend/llm/resolver.py:161-181 | a candidate is cooled, missing, failed or decisive in exactly these cases |
| ProviderFailover.StopIsUnique | backend/llm/resolver.py:163-181 | where the search stops is determined |
| ProviderFailover.AllAccountedFor | backend/llm/resolver.py:161-186 | on exhaustion tried + cooled + missing is the length of the list |
| ProviderFailover.EarlierCandidates | backend/llm/resolver.py:163-181 | every candidate before the decisive one was cooled, missing, or has its cooldown set now |
| ProviderFailover.UntouchedProviders | backend/llm/resolver.py:177-181 | a provider that did not fail retryably keeps its entry as it was |
| ProviderFailover.NotRetriedDuringCooldown | backend/llm/resolver.py:88-96 | over any sequence of calls that follow each other a provider is not tried again before its cooldown has passed |
| ProviderFailover.PassesIff | backend/llm/resolver.py:88-96 | over every interleaving of calls, overlapping ones included, a check lets a provider through if and only if the cooldowns of all its earlier failures have passed, or, without any, the one the table began with |
| ProviderFailover.CallsAreMoments | backend/llm/resolver.py:161-181 | a call leaves the table as its checks and failures, taken one by one, do |
| ProviderFailover.RepeatedProviderIsSkipped | backend/llm/resolver.py:163-181 | a provider listed twice is tried once |
| ReverseChannel.AgentManager.UnregisterConnection | backend/ws_agent_manager.py:84-110 | removes the connection, settles exactly the agent's waiting tasks and drops their callbacks |
| ReverseChannel.AgentManager.BeginAgentTask | backend/ws_agent_manager.py:189-216 | opens a call in all tables, or refuses an unconnected agent |
| ReverseChannel.AgentManager.EndCall | backend/ws_agent_manager.py:229-231 | removes the call's entries |
| ReverseChannel.RunKeepsInv | backend/ws_agent_manager.py:65-75 | over every interleaving in which no id is reused while a call of its kind has it, each table holds exactly the calls in progress of its kind, and every waiting agent task belongs to a connected agent |
| ReverseChannel.EmptyInv | backend/ws_agent_manager.py:65-75 | the empty tables comply |
| ReverseChannel.FutureStep | backend/ws_agent_manager.py:174-180 | a future is resolved only by its own id or its agent's disconnect, a settled one never changes, and events reach only their own task |
| ReverseChannel.ResolvedAtMostOnce | backend/ws_agent_manager.py:265-274 | over every run the first answer of a future is its only one |
| ReverseChannel.GivenUpStaysSilent | backend/ws_agent_manager.py:222-231 | a call that gives up waiting is not resolved any more by any step |
| ReverseChannel.AnswerArrives | backend/ws_agent_manager.py:174-180 | an answer for a waiting call in progress reaches it |
| ReverseChannel.EventArrivesIff | backend/ws_agent_manager.py:251-262 | an event reaches its task in progress if and only if its callback is still registered, as it is while the task waits; it reaches no other call |
| ReverseChannel.DisconnectLeavesNone | backend/ws_agent_manager.py:84-110 | after a disconnect none of the agent's tasks is waiting, and collect calls are untouched |
| ReverseChannel.NoEntryOutlivesItsCall | backend/ws_agent_manager.py:170-171 | with no call in progress all request tables are empty |
| ReverseChannel.NothingWaitsOnAClosedSocket | backend/api/v1/nodes.py:727-871 | over every history of sockets and requests each connection and each waiting task is on a socket still being served for its own agent |
| ReverseChannel.CloseSettles | backend/ws_agent_manager.py:95-110 | closing a socket fails the waiting tasks of the agent it named, on whatever socket they were begun, and no others |
| ReverseChannel.CloseSparesConnectionsIff | backend/api/v1/browsers.py:577-579 | a close leaves every connection on another socket in place if and only if its agent has no connection or has it on this very socket |
| ReverseChannel.CloseSparesTasksIff | backend/api/v1/browsers.py:577-579 | a close leaves every waiting task begun on another socket waiting if and only if its agent has none waiting there |
| ReverseChannel.LateCloseDropsTheNewConnection | backend/api/v1/browsers.py:577-579 | in every state the history connect, connect again, start a task, close the first socket is possible and ends without the connection and with the new task failed, the second socket still open |
| ReverseChannel.RefusedSocketDropsTheConnection | backend/api/v1/nodes.py:746-773 | a second socket that names the agent and is refused drops the agent's connection when it closes |
| ReverseChannel.StartKeepsInvIff | backend/ws_agent_manager.py:146-149 | a call begun under an id keeps the tables describing the calls in progress if and only if no call of its kind in progress has that id |
| ReverseChannel.ReuseStrandsIff | backend/ws_agent_manager.py:146-171 | beginning a call leaves a waiting one that no answer reaches if and only if a call of its kind is waiting under that id |
| ReverseChannel.EndStrandsIff | backend/ws_agent_manager.py:170-171 | the end of a call in progress makes the new one unreachable if and only if they have kind and id in common |
| ReverseChannel.ReusedIdStrandsBoth | backend/ws_agent_manager.py:146-171 | a collect call that reuses the id of one in progress strands the first, and the first's end strands it |
| RuntimeEvents.PiInvoke | backend/agent_runtimes/pi_adapter.py:206-314 | the events and the end (return, exception, or cancellation by the adapter's own deadline) are those of PiStream for every set-up, output, deadline and exit code |
| RuntimeEvents.CutInForwardingIff | backend/agent_runtimes/pi_adapter.py:206-353 | the deadline cuts a run off in forwarding exactly when it passes there and the last line read has an event |
| RuntimeEvents.PiContractIff | backend/agent_runtimes/pi_adapter.py:206-353 | one terminal event, last, if and only if set-up, opening, reading and closing raise nothing, the deadline does not pass while an event is being forwarded, and the joined texts are strings; otherwise there is no terminal event |
| RuntimeEvents.PiUnreadableLine | backend/agent_runtimes/pi_adapter.py:248-264 | the first line that is over the reader's limit, that the parser rejects with something else than a decode error, or that the translation cannot take makes the adapter raise that exception after the earlier events |
| RuntimeEvents.RaisesIff | backend/agent_runtimes/pi_adapter.py:244-264 | which lines raise and with which exception, one over 65536 bytes whatever is in it |
| RuntimeEvents.PiDoneIsTheText | backend/agent_runtimes/pi_adapter.py:268-314 | the text of done is the concatenation of the run's text events |
| RuntimeEvents.PiEndsWith | backend/agent_runtimes/pi_adapter.py:206-314 | a readable run is done if and only if all lines were read in time and pi exited with 0; otherwise it ends with the error of the failed response, the deadline or the exit code |
| RuntimeEvents.MiniflowInvoke | backend/agent_runtimes/miniflow_adapter.py:72-127 | draining the queue gives the same events for every batching of the audit entries, and every outcome of building the request has its own |
| RuntimeEvents.MiniflowContractIff | backend/agent_runtimes/miniflow_adapter.py:72-127 | the adapter keeps the contract if and only if building its request raises nothing but a TypeError or ValueError; otherwise it raises without any event |
| RuntimeEvents.MiniflowEndsWith | backend/agent_runtimes/miniflow_adapter.py:72-127 | a run is done exactly if it was built and succeeded; otherwise it ends with the error of what went wrong |
| RuntimeEvents.MiniflowFollowsTheAudit | backend/agent_runtimes/miniflow_adapter.py:84-127 | started, one call and result pair per audit entry in order, then one terminal event, done exactly on success |
| RuntimeEvents.BbxInvoke | backend/agent_runtimes/bbx_adapter.py:71-158 | the events of every workflow, reply and exception are those of ToolEvents |
| RuntimeEvents.OpenTabsInvoke | backend/agent_runtimes/opentabs_adapter.py:92-194 | the events of every workflow, reply and exception are those of ToolEvents |
| RuntimeEvents.ToolAdaptersWellFormed | backend/agent_runtimes/bbx_adapter.py:71-158 | the BBX and OpenTabs adapters emit exactly one terminal event, last, for every request and reply |
| RuntimeEvents.ToolEndsWith | backend/agent_runtimes/opentabs_adapter.py:92-194 | a run of either adapter is done if and only if its configuration fits, the tool is named and the reply is accepted, with the reply's body; otherwise it ends with the error of what went wrong |
| RuntimeEvents.ToolReports | backend/agent_runtimes/bbx_adapter.py:101-158 | it names the tool first and reports a reply that is looked at before it ends |
| RuntimeEvents.HandleAgentTask | backend/agent_server.py:298-397 | forwards every event and attempts the result, unless the adapter's deadline cancels it while it forwards |
| RuntimeEvents.OneResultPerTask | backend/agent_server.py:353-397 | at most one agent_result, last; there is one if and only if the adapter's deadline did not cancel the task; it is the stream's terminal event when the contract is kept, and the only terminal one when the adapter raised |
| RuntimeEvents.PiAnsweredIff | backend/agent_server.py:353-397 | a finite pi run is answered by one terminal result if and only if its deadline does not pass while an event of it is being forwarded; otherwise nothing terminal is sent |

## Left out

- graphlib's own cycle search is not modelled; `prepare` is modelled by what it decides, that the waves do not reach every step.
- Exceptions other than the two MiniFlow kinds raised by a step's callable, wall-clock fields and file output of the audit log.
- MiniflowRunner.DelaysSum: delays are exact reals, not floating point.
- Rate arithmetic and thresholds are exact rationals, so rounding at a threshold is not modelled.
- Transport, SQL, Redis and WebSocket encodings: each call stands for the atomic read or update it performs.
- Secret scanning, the JSON shape checks that come before the fields are read, URL guards, RBAC lookups and log texts.
- CatalogSchema.ValidateMatrix: works on a typed matrix, so partially present plugin-provider fields and non-string keys, which the original rejects, cannot be written down.
- Whitespace is space, tab, newline and carriage return, and digits are ASCII digits; the original also accepts other Unicode ones.
- The configuration gate of the image worker and a job that no longer exists, which end a delivery without effect; cancelling an image job, which may overwrite any status except cancelled.
- The mapping of the sidecar's raw status words and the wording of its errors.
- The other fields of sources, schedules and providers; they count as unchanged by an action.
- AgentControl.EffectsAtMostOnce: version check and effect are one step; AgentControlSplit takes them apart.
- ProviderFailover.NotRetriedDuringCooldown: calls follow each other; ProviderFailover.PassesIff is the statement for overlapping ones.
- The Redis pool's shared and per-endpoint lists, which acquire no longer reads.
- The edge's table of active tasks, which forgets a task by the same rule as the executor's tables.
- SystemExit and KeyboardInterrupt raised by a step's callable, which stop the edge's event loop; cancellation of an agent task from outside.
- `mode_breakdown`, collectors, recorders, cookies, channels, the command-line tools and the frontend.
- ControlCycle.RunKeeps: the settings stay the same over a sequence of ticks.
