# Verified model of Turning-Good-Agent

A Dafny model of the parts of Turning-Good-Agent whose correctness depends on more than one function:
the Gateway turn protocol, Multi-Agent runs and their event log, the proactive scheduler and message review,
the agent loop's transcript, and the encoders. `dafny verify dfyconfig.toml` checks the whole project.

Code that updates state is modelled twice. A class has the fields of the source's object, and each of its
methods is one lock section or one stretch between two awaits; its `ensures` equates the whole new state
with a function of the old one; the table below names the methods with loops and the ones with most
branches. A state machine over the same functions lets the environment pick any enabled step, and the
theorems hold for every run of it.

| files | what they model |
|---|---|
| `GatewayTurns`, `ImChannel`, `GatewayProtocol`, `GatewayHistory`, `GatewayTheorems`, `GatewayProgress` | the turn coordinator and the IM layer's controls as one protocol, with per-route histories of accepted, dispatched, ended and dropped ids; what may never happen, and what every step must do |
| `RuntimeSwap`, `RuntimeOutcomes` | replacing the runtime at idle points, and the ways in which a reload ends |
| `Slots`, `SlotLaws` | execution slots of command-line turns that wait for approvals |
| `RunLog`, `RunRecovery`, `RecoveryTheorems`, `RunViews` | the Multi-Agent event log: reading it back into run views and repairing it after a restart; each field of a view told from the rows |
| `RunEvents`, `RunAgreement`, `RunOutcomes`, `RunWorkers` | the coordinator of a run: its events, how it ends, workers under two semaphores, and the pipeline |
| `Calendar`, `CronSchedule`, `CronParse` | cron expressions and the bounded search for the next firing |
| `CronJobs`, `CronRuns`, `CronProgress`, `CronSurvival` | the durable job table with tasks, deletions and restarts; which due jobs are started, and which jobs survive |
| `Batching`, `Utf8`, `ReviewWindow`, `ReviewRuns`, `Breakbeat`, `ReviewLaws` | greedy batching, UTF-8 chunks, the review window and its cursors over any number of runs |
| `Compaction` | which messages short-term memory keeps |
| `ToolCalls`, `Transcript` | executing tool calls and building the transcript |
| `Texts`, `SkillFile`, `SessionIds` | text operations, SKILL.md, the hashed octets of a session id |

Where a promised property does not hold of the code for all inputs, the model keeps the code, shows an
input that fails and proves exactly when the property holds:

- `Slots.OverlapLosesAPermit` and `Slots.CancelledAcquireAddsAPermit`: two approvals of one turn that reach the
  semaphore together lose a permit, a cancellation there adds one. `Slots.PermitsAddUp` is the exact balance of
  every run, `Slots.ConservedIffNeverGrantedTwice` the exact condition without such a cancellation.
- `RecoveryTheorems.MisplacedNodeIdStaysOpen`: a node id on a row that is not a node row keeps a node open
  through recovery; `RecoveryTheorems.RecoveredNodesEnd` is the exact condition on the log.
- `CronSchedule.LeapDayMayBeMissed`: 29 February alone may lie outside the two scanned years, so a valid
  expression is refused; `CronSchedule.ScanDecided` is the exact condition for every expression.
- `CronProgress.FailingJobStaysDue`: a recurring job whose expression has no further firing inside the scan, such
  as 29 February after one has passed, stays due, and every pass over the due jobs ends there with an error;
  `CronProgress.DueJobsAreStarted` tells exactly which of the due jobs a pass reaches.
- `CronSurvival.FailedRebuildDropsDeadlines`: such a job at activation or a change of time zone also leaves the jobs
  after it without a deadline; while no rebuild fails, `CronSurvival.EveryJobHasItsDeadline` holds.
- `RuntimeSwap.CancelledTwiceStaysApplying`: a reload cancelled twice rests in the applying state, so that the end
  of a turn does not call it again; `RuntimeOutcomes.RestsApplyingExactly` is the exact condition, and
  `RuntimeSwap.NoRequestIsForgotten` covers a supervisor that rests as active.
- `RunViews.RecoveredViewIsExact`: a recovered run shows, as its own duration, the one on its last row, which may
  be that of a node; everything else in its view is as promised.
- `Compaction.EqualIdsLoseMessages`: messages without ids of their own are dropped from both parts;
  `Compaction.NothingIsLost` is the exact condition on the ids.
- `ReviewRuns.TiedMessageIsSkipped`: when the cursor's message is no longer in view, messages with exactly its
  time are skipped; `ReviewRuns.FreshSelectionIsComplete` is the exact condition.
- `SkillFile.QuotedDescriptionLosesItsQuotes`: a description that the creator accepts reads back as another one;
  `SkillFile.RenderedSkillReadsBack` is the exact condition.

## Model

| member | source | states |
|---|---|---|
| GatewayTurns.FailingChainEnds | Turning-Good-Agent/gateway/turns.py:144-183 | while nothing else happens on the route, a chain of failing dispatches tries the first turn and then each waiting one once, and ends with the route free and exactly those ids out of flight; other routes are untouched |
| GatewayTurns.TurnCoordinator.SubmitSection | Turning-Good-Agent/gateway/turns.py:84-100 | whole new state of a submit; over runs, `GatewayProgress.InputsAreAccepted` says which inputs are accepted and where they go |
| GatewayTurns.TurnCoordinator.CompleteSection | Turning-Good-Agent/gateway/turns.py:127-142 | only the active id completes its route, which passes to the first waiting turn or becomes free |
| GatewayTurns.TurnCoordinator.RollbackSection | Turning-Good-Agent/gateway/turns.py:155-183 | a failed dispatch gives its id up and advances the route, or drops everything that waits there |
| GatewayTurns.TurnCoordinator.DiscardSection | Turning-Good-Agent/gateway/turns.py:185-191 | dropping the waiting turns gives up exactly their ids |
| GatewayTurns.TurnCoordinator.FinishSection | Turning-Good-Agent/gateway/turns.py:238-243 | a finished id moves to the end of the cache, which keeps its newest 2,048 |
| ImChannel.ImGateway.InstallSection | Turning-Good-Agent/channels/im.py:182-192 | dispatch installs a control, or refuses with one of two errors |
| ImChannel.ImGateway.DeliverSection | Turning-Good-Agent/channels/im.py:213-222 | a delivery removes the control of exactly that request |
| GatewayProtocol.StepKeepsInv | Turning-Good-Agent/gateway/turns.py:65-243 | every step of coordinator and IM layer, in any interleaving, keeps: waiting turns are in flight behind an active turn, no id waits twice, each unfinished task alone holds its route, each control belongs to the active turn; also when the cache forgets a turn that is still active, and over a close and new start |
| GatewayHistory.StepKeepsOrder | Turning-Good-Agent/gateway/turns.py:84-191 | every step keeps the order and the count of ids on every route |
| GatewayHistory.StepKeepsCache | Turning-Good-Agent/gateway/turns.py:238-243 | every step keeps the cache equal to the newest distinct finished ids |
| GatewayHistory.RememberNewest | Turning-Good-Agent/gateway/turns.py:239-243 | trimming before recording an id gives the same cache as trimming after |
| GatewayHistory.StepKeepsLife | Turning-Good-Agent/gateway/turns.py:84-243 | every accepted id is in flight, was given up, or finished since it was last accepted |
| GatewayHistory.RunKeepsAll | Turning-Good-Agent/gateway/turns.py:84-243 | all of the above over whole runs |
| GatewayTheorems.DispatchOrder | Turning-Good-Agent/gateway/turns.py:84-191 | FIFO: dispatched then waiting ids are a subsequence of the accepted ids, short by exactly the dropped ones, and equal to them when none was dropped |
| GatewayTheorems.DispatchesAreBounded | Turning-Good-Agent/gateway/turns.py:84-183 | with other inputs arriving meanwhile, a route sees at most as many further dispatches as turns waited there and were accepted there since |
| GatewayTheorems.OneTurnAtATime | Turning-Good-Agent/gateway/turns.py:127-183 | dispatched ids are those that were completed, rolled back or ended by a close, in order, followed by the active one |
| GatewayTheorems.ControlsAreActive | Turning-Good-Agent/channels/im.py:166-224 | every control's request is the active turn of its route |
| GatewayTheorems.NeverAlreadyRunning | Turning-Good-Agent/channels/im.py:182-191 | the error that a turn is already running cannot occur; a dispatch fails only on a changed generation |
| GatewayTheorems.StaleDeliveriesChangeNothing | Turning-Good-Agent/channels/im.py:203-222 | a stale or repeated delivery changes nothing |
| GatewayTheorems.BlockedRoutesAreIdle | Turning-Good-Agent/channels/im.py:230-252 | while a block stands, no matching route is active, waiting or controlled, and inputs there are refused |
| GatewayTheorems.BlocksLast | Turning-Good-Agent/gateway/turns.py:102-125 | over any run from the grant of a block to its release or a close, the block stands, its routes are idle and inputs there are refused |
| GatewayTheorems.IdleMeansNothingWaits | Turning-Good-Agent/gateway/turns.py:198-200 | global idleness means that no route has a waiting turn and no task is unfinished |
| GatewayTheorems.CacheIsNewestFinished | Turning-Good-Agent/gateway/turns.py:238-243 | the cache is always exactly the last 2,048 distinct finished ids |
| GatewayTheorems.DistinctAfter | Turning-Good-Agent/gateway/turns.py:239-243 | after an id in the cache stand exactly the distinct ids that finished after it |
| GatewayTheorems.EvictedLongAgo | Turning-Good-Agent/gateway/turns.py:239-243 | an id that left the cache was followed by at least 2,048 other distinct finished turns |
| GatewayTheorems.AcceptedAgain | Turning-Good-Agent/gateway/turns.py:65-98 | an id is accepted again only after it was rolled back or dropped, after a close, or after 2,048 other turns finished |
| GatewayProgress.InputsAreAccepted | Turning-Good-Agent/gateway/turns.py:84-100 | in every reachable state an input is accepted if and only if the coordinator is open, no block matches and its id is neither in flight nor cached; it then stands last on its route, and any other input changes nothing |
| GatewayProgress.CompletionPassesOn | Turning-Good-Agent/gateway/turns.py:127-142 | the completion of the active turn frees its id and starts the first waiting turn, or frees the route |
| GatewayProgress.RollbackPassesOn | Turning-Good-Agent/gateway/turns.py:155-183 | a failed dispatch gives its id up and starts the first waiting turn, or drops all that wait, as asked |
| GatewayProgress.DiscardDropsWaiting | Turning-Good-Agent/gateway/turns.py:185-191 | exactly the waiting turns of the route are given up |
| GatewayProgress.ReportsComplete | Turning-Good-Agent/channels/im.py:203-222 | the report of the active turn starts its completion |
| GatewayProgress.DispatchesInstall | Turning-Good-Agent/channels/im.py:166-192 | a dispatch installs its control, unless the layer was closed or restarted meanwhile |
| GatewayProgress.FailedPublicationsUninstall | Turning-Good-Agent/channels/im.py:193-200 | a failed publication removes its own control and no other |
| GatewayProgress.GenerationCounts | Turning-Good-Agent/channels/im.py:136-146 | the generation counts the closes and starts of the layer |
| GatewayProgress.BlocksAreGranted | Turning-Good-Agent/gateway/turns.py:102-119 | a block is granted exactly when the coordinator is open and no matching route is active or waiting |
| GatewayProgress.ReservationsStart | Turning-Good-Agent/channels/im.py:230-252 | a reservation comes to the coordinator exactly when no matching route has a control |
| GatewayProgress.ReleasesFree | Turning-Good-Agent/gateway/turns.py:121-125 | a released block is gone, and no other one |
| GatewayProgress.NoRouteIsForgotten | Turning-Good-Agent/gateway/turns.py:84-183 | in every run without a close of the layer, each active or waiting route is attended: an unfinished task works on it, or the delivery of its turn is awaited |
| RuntimeSwap.NoTurnOnAClosedRuntime | Turning-Good-Agent/gateway/runtime_supervisor.py:71-161 | no turn runs on a runtime that was closed |
| RuntimeSwap.NoHolderAtTheSwap | Turning-Good-Agent/gateway/runtime_supervisor.py:99-161 | when a runtime is replaced, no turn holds it |
| RuntimeSwap.EveryExitLeavesOneRuntime | Turning-Good-Agent/gateway/runtime_supervisor.py:99-170 | outside a reload exactly the current runtime is open, and waiting turns may go on |
| RuntimeSwap.ReportedRevisionIsCurrent | Turning-Good-Agent/gateway/runtime_supervisor.py:75-161 | in every reachable state the revision reported as active is the one that the current runtime was built for |
| RuntimeSwap.SwapIsToTheCandidate | Turning-Good-Agent/gateway/runtime_supervisor.py:139-144 | the current runtime changes only to the candidate that passed every stage, which was built for the revision then reported |
| RuntimeSwap.LastRequestIsDesired | Turning-Good-Agent/gateway/runtime_supervisor.py:80-97 | in every reachable state the desired revision is that of the last request before the shutdown |
| RuntimeSwap.SwapMeetsTheLastRequest | Turning-Good-Agent/gateway/runtime_supervisor.py:139-144 | at a swap the supervisor is active if and only if the new runtime was built for the last request, and pending otherwise |
| RuntimeSwap.NoRequestIsForgotten | Turning-Good-Agent/gateway/runtime_supervisor.py:80-161 | a supervisor that is not shut down, rests as active and has no reload called runs the revision of the last request |
| RuntimeSwap.PendingIsTakenUp | Turning-Good-Agent/gateway/runtime_supervisor.py:80-97 | a request while idle, and the end of the last turn while one is pending, call a reload |
| RuntimeSwap.SmoothReloadCommits | Turning-Good-Agent/gateway/runtime_supervisor.py:99-161 | a reload in which nothing goes wrong replaces the runtime by one of the desired revision and closes the old one |
| RuntimeSwap.CancelledTwiceStaysApplying | Turning-Good-Agent/gateway/runtime_supervisor.py:145-161 | a reload cancelled twice rests as applying and is not called again |
| RuntimeOutcomes.BuildFails | Turning-Good-Agent/gateway/runtime_supervisor.py:112-161 | a candidate that cannot be built leaves the old runtime, and a failed supervisor unless it is shut down |
| RuntimeOutcomes.StageFails | Turning-Good-Agent/gateway/runtime_supervisor.py:112-161 | a stage that raises closes the candidate and leaves the old runtime with a failed supervisor |
| RuntimeOutcomes.StageIsCancelled | Turning-Good-Agent/gateway/runtime_supervisor.py:145-161 | a cancelled stage closes the candidate; the supervisor has failed unless it is shut down |
| RuntimeOutcomes.BusyCandidateIsRejected | Turning-Good-Agent/gateway/runtime_supervisor.py:112-138 | a turn that arrived while the candidate was built or started leaves the request pending and the candidate closed |
| RuntimeOutcomes.RestsApplyingExactly | Turning-Good-Agent/gateway/runtime_supervisor.py:145-161 | in every run, a reload leaves the supervisor applying if and only if it was cancelled while it closed the candidate of a cancelled stage and nothing was requested meanwhile |
| RuntimeOutcomes.ShutdownDiscards | Turning-Good-Agent/gateway/runtime_supervisor.py:112-144 | after a shutdown began the candidate is closed and the old runtime stays the active one |
| RuntimeOutcomes.ShutdownKeepsTheRuntime | Turning-Good-Agent/gateway/runtime_supervisor.py:99-161 | after a shutdown began the runtime is never replaced, and no reload starts again |
| RuntimeSwap.StepKeepsInv | Turning-Good-Agent/gateway/runtime_supervisor.py:71-170 | every step of supervisor and turns keeps the open runtimes and the holders accounted for |
| RuntimeSwap.RuntimeSupervisor.ResumeReload | Turning-Good-Agent/gateway/runtime_supervisor.py:112-161 | whole new state after each await of a reload, for every outcome |
| Slots.PermitsAddUp | Turning-Good-Agent/channels/cli_gateway.py:250-278 | in every run, cancellations included, free permits, executing turns and lost permits add up to the limit and the permits given back in excess |
| Slots.ConservedIffNeverGrantedTwice | Turning-Good-Agent/channels/cli_gateway.py:268-272 | unless a wait at the semaphore is cancelled, permits are conserved in a run if and only if the semaphore never grants one to a turn whose slot is held |
| Slots.PermitsAreConserved | Turning-Good-Agent/channels/cli_gateway.py:250-278 | with one approval of a turn at a time at the semaphore and no wait there cancelled, permits are conserved |
| Slots.NothingIsLost | Turning-Good-Agent/channels/cli_gateway.py:268-272 | a permit is lost only if two approvals of one turn are at the semaphore together |
| Slots.NothingInExcess | Turning-Good-Agent/channels/cli_gateway.py:255-272 | unless a wait at the semaphore is cancelled, no turn gives back a permit that it does not hold |
| Slots.OverlapLosesAPermit | Turning-Good-Agent/channels/cli_gateway.py:250-278 | a run with two approvals decided together ends one permit short |
| Slots.CancelledAcquireAddsAPermit | Turning-Good-Agent/channels/cli_gateway.py:255-272 | a turn cancelled while it acquires its slot again leaves one permit too many |
| Slots.StepKeepsInv | Turning-Good-Agent/gateway/turns.py:209-215 | every step keeps the sum of permits |
| Slots.CliTurnControl.AfterDecision | Turning-Good-Agent/channels/cli_gateway.py:255-261 | the decision is returned; the wait ends at once or at the semaphore |
| SlotLaws.FirstDecisionCounts | Turning-Good-Agent/channels/cli_gateway.py:250-298 | in every run the decision that a wait returns is the first resolution after the approval was created, or a denial if the turn was stopped before |
| SlotLaws.SlotFollowsWaits | Turning-Good-Agent/channels/cli_gateway.py:250-278 | while a turn waits for one approval at a time and no acquire is cancelled, a bound turn holds its slot if and only if it waits for none |
| RunLog.ReadRow | Turning-Good-Agent/sessions/store.py:310-390 | one pass of the reader changes exactly the row's run, by the step function |
| RunLog.ReadRuns | Turning-Good-Agent/sessions/store.py:290-395 | the reader returns the newest views, each the fold of the whole log |
| RunLog.FoldIffOrdered | Turning-Good-Agent/sessions/store.py:310-337 | the runs shown are exactly those that some row names |
| RunRecovery.RunsAreIndependent | Turning-Good-Agent/sessions/store.py:310-390 | a run's view depends only on its own rows |
| RunRecovery.EndedStaysEnded | Turning-Good-Agent/sessions/store.py:310-390 | in every extension of the log an ended run keeps status and errors, and an ended node keeps everything |
| RunRecovery.GroupFacts | Turning-Good-Agent/sessions/store.py:346-390 | runs and nodes count as ended exactly when one of their rows ends them |
| RunRecovery.GroupRows | Turning-Good-Agent/sessions/store.py:414-423 | grouping keeps each run's rows in order |
| RunRecovery.OpenNodeRepairs | Turning-Good-Agent/sessions/store.py:437-456 | one repair row for every node whose last mention is open |
| RunRecovery.RecoverInterrupted | Turning-Good-Agent/sessions/store.py:397-474 | the repaired log and the runs that are reported |
| RecoveryTheorems.RecoveredRows | Turning-Good-Agent/sessions/store.py:424-473 | recovery appends to a run its own repairs and nothing else |
| RecoveryTheorems.RecoveryEndsEveryRun | Turning-Good-Agent/sessions/store.py:397-474 | after recovery every run is terminal |
| RecoveryTheorems.OpenRunsBecomeInterrupted | Turning-Good-Agent/sessions/store.py:525-550 | a run left open is shown as interrupted by the restart |
| RecoveryTheorems.RecoveryKeepsEndedRuns | Turning-Good-Agent/sessions/store.py:425-436 | the view of a run that had ended is unchanged |
| RecoveryTheorems.RecoveryIsIdempotent | Turning-Good-Agent/sessions/store.py:397-474 | recovering again adds nothing and reports nothing |
| RecoveryTheorems.RecoveredNodesEnd | Turning-Good-Agent/sessions/store.py:437-456 | all nodes of a recovered run are terminal if and only if every updated node is open by its last mention or was ended by its own rows |
| RecoveryTheorems.WellWrittenLogsRecover | Turning-Good-Agent/sessions/store.py:437-472 | when node ids stand only on node rows, all nodes of a recovered run are terminal |
| RecoveryTheorems.MisplacedNodeIdStaysOpen | Turning-Good-Agent/sessions/store.py:437-456 | a log for which a node stays open |
| RunViews.ViewsShowTheirRows | Turning-Good-Agent/sessions/store.py:310-390 | in the view of every run of every log, the nodes stand by their first update, and each field of run and node is the last value of its type given before the end; the end row gives status and error |
| RunViews.ShownRuns | Turning-Good-Agent/sessions/store.py:310-337 | the runs shown are those that a Multi-Agent row of a known event names |
| RunViews.OrderGrowsAtTheEnd | Turning-Good-Agent/sessions/store.py:310-337 | the runs stand by their first row |
| RunViews.OpenNodesBecomeInterrupted | Turning-Good-Agent/sessions/store.py:437-456 | a node that was open by its last mention is shown as interrupted by the restart with the content it had; every other node is unchanged |
| RunViews.RecoveredViewIsExact | Turning-Good-Agent/sessions/store.py:437-550 | the whole view of a recovered run whose node ids stand on node rows: status and error of the restart on the run and its open nodes, the duration of the last row, and nothing else |
| RunEvents.RunControl.BeginRun | Turning-Good-Agent/multi_agent/coordinator.py:148-178 | a new run queues its nodes and starts |
| RunEvents.RunControl.ConcludeWorkers | Turning-Good-Agent/multi_agent/coordinator.py:189-222 | whole new state after the workers; `RunOutcomes.WorkersDecide` says what it shows |
| RunEvents.RunControl.Perform | Turning-Good-Agent/multi_agent/coordinator.py:233-296 | waiting, context checks and finalisation by the parent |
| RunAgreement.LogAgreesWithRun | Turning-Good-Agent/multi_agent/coordinator.py:134-296 | folding the emitted log gives the coordinator's run status, strategy, node order, node statuses and error codes, for every order of worker events, verdict and parent operations; each node and run has at most one terminal event and nothing after it |
| RunAgreement.ParentAgrees | Turning-Good-Agent/multi_agent/coordinator.py:233-296 | every sequence of parent operations keeps log and run in agreement |
| RunOutcomes.WorkersDecide | Turning-Good-Agent/multi_agent/coordinator.py:189-222 | what the log shows after the workers: cancelled on a stop, else timed out when late, else failed over the budget, else failed with the first error code when none completed or a pipeline did not; otherwise running |
| RunOutcomes.ParentDecides | Turning-Good-Agent/multi_agent/coordinator.py:233-296 | what the log shows after each operation of the parent turn, and that an ended or finalised run changes no more |
| RunWorkers.WorkersWithinLimits | Turning-Good-Agent/multi_agent/coordinator.py:382-462 | working workers never exceed the limit of the run or the global one |
| RunWorkers.FanOutEnds | Turning-Good-Agent/multi_agent/coordinator.py:299-325 | when the workers of a fan-out have left, both semaphores are back at their start and the log shows the run |
| RunWorkers.StepConserves | Turning-Good-Agent/multi_agent/coordinator.py:633-648 | every step keeps free slots plus holders equal to each limit |
| RunWorkers.CallWorker | Turning-Good-Agent/multi_agent/coordinator.py:350-366 | a worker is run on its completed predecessor's content |
| RunWorkers.RunSequential | Turning-Good-Agent/multi_agent/coordinator.py:327-379 | one node per task in order: completed ones, at most one that is not, then cancelled ones; worker j runs only after worker j-1 completed, on exactly its content within the bounds; the first without content to hand on is the last one run; a node that was not run failed for the content before it, or was cancelled, with the fixed texts |
| Calendar.DateOf | Turning-Good-Agent/proactive/scheduler.py:155-167 | every day number is that of a valid date |
| Calendar.DateOfOrdinal | Turning-Good-Agent/proactive/scheduler.py:155-167 | every valid date is the date of its day number |
| CronSchedule.NextCronFire | Turning-Good-Agent/proactive/scheduler.py:48-57 | the least matching minute after the instant, in any time zone, and an error exactly when none of the 1,054,080 scanned minutes matches; `CronSchedule.MatchesExactly` says which minutes match |
| CronSchedule.MatchesExactly | Turning-Good-Agent/proactive/scheduler.py:155-167 | a minute matches if and only if minute, hour and month are in their fields and the day is in both day fields, or in one of them when both are restricted; weekdays count from Sunday |
| CronSchedule.RestrictedDaysAreUnited | Turning-Good-Agent/proactive/scheduler.py:155-167 | with both day fields restricted, the minutes are those of the expression with a star for the one and those with a star for the other |
| CronSchedule.ScanDecided | Turning-Good-Agent/proactive/scheduler.py:48-57 | at a fixed offset and for every expression the scan finds a minute if and only if the day of week is restricted, or some month has a day of the expression every year, or it names 29 February and one lies inside the scan |
| CronSchedule.ClockHasFixedOffset | Turning-Good-Agent/proactive/scheduler.py:48-57 | for every offset there is a local time that keeps it |
| CronSchedule.EverydayExpressionsAreFound | Turning-Good-Agent/proactive/scheduler.py:48-57 | an expression with a star as day of month, a restricted day of week, or a day up to 28 is always found |
| CronSchedule.ImpossibleExpressionsNeverMatch | Turning-Good-Agent/proactive/scheduler.py:155-167 | without a weekday, a day that every year has, or 29 February, no minute of any year matches |
| CronSchedule.LeapDayMayBeMissed | Turning-Good-Agent/proactive/scheduler.py:48-57 | the scan from 1 January 2021 for 29 February fails at every offset |
| CronParse.PiecesJoin | Turning-Good-Agent/proactive/scheduler.py:109-110 | the parts of a field joined by commas are the field, and hold no comma |
| CronParse.JoinedPieces | Turning-Good-Agent/proactive/scheduler.py:109-110 | no other parts joined give the same field |
| CronParse.LegalPartIsRead | Turning-Good-Agent/proactive/scheduler.py:114-132 | a part written by the grammar is accepted with exactly the values it allows |
| CronParse.AcceptedParts | Turning-Good-Agent/proactive/scheduler.py:114-152 | a text is accepted as a part if and only if the grammar writes it |
| CronParse.SpanHolds | Turning-Good-Agent/proactive/scheduler.py:132-132 | a range with a step is the numbers between its ends at whole steps |
| CronParse.ParseField | Turning-Good-Agent/proactive/scheduler.py:104-111 | a field is accepted if and only if each part is, and allows the union of what they allow, some value and none out of bounds |
| CronParse.Parse | Turning-Good-Agent/proactive/scheduler.py:84-101 | an expression is accepted if and only if its five fields are; Sunday may be 0 or 7, and the result is what the search needs |
| CronParse.WordsApart | Turning-Good-Agent/proactive/scheduler.py:84-87 | white space separates the fields, at either end and however much of it |
| CronParse.WordIsWhole | Turning-Good-Agent/proactive/scheduler.py:84-87 | a text without white space is one field |
| CronParse.ShownNumberIsRead | Turning-Good-Agent/proactive/scheduler.py:135-152 | the decimal notation of every number is read as that number |
| CronJobs.CronManager.RunDueJobs | Turning-Good-Agent/proactive/cron.py:209-241 | whole new state of a pass over the due jobs; `CronProgress.DueJobsAreStarted` says job by job what it does |
| CronJobs.CronManager.RebuildDeadlines | Turning-Good-Agent/proactive/cron.py:362-387 | deadlines rebuilt from the jobs, up to an error |
| CronRuns.StepKeepsInv | Turning-Good-Agent/proactive/cron.py:94-387 | every step, restarts and failing schedules included, keeps kinds, deadlines and tasks consistent |
| CronRuns.DueAllKeeps | Turning-Good-Agent/proactive/cron.py:209-241 | also after any number of due jobs, and when one of them raises |
| CronRuns.OneShotStartsOnce | Turning-Good-Agent/proactive/cron.py:209-241 | a one-shot job is started at most once over any run with restarts |
| CronRuns.AtMostOneLiveTask | Turning-Good-Agent/proactive/cron.py:209-286 | a job has at most one live task, and one shown as running has one |
| CronRuns.DeadlinesIncrease | Turning-Good-Agent/proactive/cron.py:348-387 | consumed deadlines of a job strictly increase, and its next one lies after them |
| CronRuns.DeletedNeverReturns | Turning-Good-Agent/proactive/cron.py:175-199 | after its deletion a job is never again in table, snapshot or deadlines |
| CronProgress.DueJobsAreStarted | Turning-Good-Agent/proactive/cron.py:209-241 | in every reachable state, each due job before the first failing one gets its next deadline and one new live task, or keeps the task it has; a job that is gone loses its deadline; every other job is left alone; the snapshot is taken unless a job fails |
| CronProgress.FailingJobStaysDue | Turning-Good-Agent/proactive/cron.py:348-360 | a recurring job without a further firing stays due as it is, so that the next pass fails again |
| CronSurvival.RebuildsEachJob | Turning-Good-Agent/proactive/cron.py:362-387 | a rebuild that succeeds gives each job by itself its deadline, for every order of the jobs, and saves exactly when it persists and some job moved |
| CronSurvival.EventsRebuild | Turning-Good-Agent/proactive/cron.py:71-92 | activation rebuilds the jobs of the snapshot, a change of zone those of the table in the new zone, a new process those of the snapshot without writing to the table |
| CronSurvival.FailedRebuildDropsDeadlines | Turning-Good-Agent/proactive/cron.py:362-387 | a rebuild that fails at a job leaves it and the jobs after it without a deadline |
| CronSurvival.EveryJobHasItsDeadline | Turning-Good-Agent/proactive/cron.py:94-387 | in every run in which no rebuild fails, each recurring job has a deadline and each one-shot job its own until it is consumed or missed |
| CronSurvival.CreatedRecurringStays | Turning-Good-Agent/proactive/cron.py:94-387 | a recurring job stays in table and snapshot until its deletion is completed, over errors and restarts |
| CronSurvival.CreatedOneShotWaits | Turning-Good-Agent/proactive/cron.py:94-387 | a one-shot job stays in table and snapshot, without a task, until its time or its deletion |
| CronSurvival.CreatedJobIsListed | Turning-Good-Agent/proactive/cron.py:94-152 | a created job has its deadline and is saved, and all others are left alone |
| CronSurvival.FinishedOneShotGoes | Turning-Good-Agent/proactive/cron.py:298-331 | a one-shot job whose task finished or was cancelled is gone from table and snapshot; a recurring one stays |
| CronSurvival.DeletedJobIsGone | Turning-Good-Agent/proactive/cron.py:175-199 | a completed deletion leaves nothing of the job and everything of the others |
| CronSurvival.WaitedTasksAreLive | Turning-Good-Agent/proactive/cron.py:209-286 | while every task begins, a job that waits for a task waits for a live one of its own |
| Batching.TightStaysAhead | Turning-Good-Agent/proactive/review_window.py:106-122 | a split whose pieces could not take one more item is ahead of every other split |
| Batching.Pack | Turning-Good-Agent/proactive/review_window.py:106-122 | batches hold all records in order, within the limit, in the fewest pieces of any such split; an error exactly when one record exceeds the limit |
| Utf8.DecodesBack | Turning-Good-Agent/channels/weixin.py:46-46 | the octets of section 3 of RFC 3629 decode to the character |
| Utf8.SplitUtf8Chunks | Turning-Good-Agent/channels/weixin.py:35-56 | chunks of whole characters carry exactly the text's octets, each within the limit, in the fewest pieces; errors exactly for a limit that is not positive or below one character |
| Utf8.CharEncodingIsPrefixFree | Turning-Good-Agent/gateway/routing.py:26-26 | no character's octets begin another's |
| Utf8.EncodeIsInjective | Turning-Good-Agent/gateway/routing.py:26-26 | different texts have different octets |
| ReviewWindow.FirstAtOrAfter | Turning-Good-Agent/proactive/review_window.py:92-103 | the first message at or after a time, or strictly after it |
| ReviewWindow.UnreadStart | Turning-Good-Agent/proactive/review_window.py:81-89 | the position from which on exactly the unread messages stand |
| ReviewWindow.SourceFacts | Turning-Good-Agent/proactive/review_window.py:47-55 | the view is sorted by time and id and holds exactly the eligible messages |
| ReviewWindow.SelectReviewWindow | Turning-Good-Agent/proactive/review_window.py:33-78 | the selection is the unread messages, inside the window unless the cursor is fresh, in the fewest batches; it tells truthfully whether something was skipped and where the cursor goes |
| ReviewRuns.StepFacts | Turning-Good-Agent/proactive/breakbeat.py:244-276 | one run reviews messages after the cursor in order, and the cursor ends at or after them |
| ReviewRuns.NothingIsReviewedTwice | Turning-Good-Agent/proactive/breakbeat.py:130-276 | over any runs, with failing batches and unsaved messages, the reviewed messages strictly ascend, so none comes twice, and the cursor never moves back |
| ReviewRuns.FreshSelectionIsComplete | Turning-Good-Agent/proactive/review_window.py:59-72 | a fresh cursor selects everything after it if and only if its position is known |
| ReviewRuns.TiedMessageIsSkipped | Turning-Good-Agent/proactive/review_window.py:81-89 | a visit with a fresh cursor whose message is gone skips another message of its time |
| ReviewRuns.FreshStepMissesNothing | Turning-Good-Agent/proactive/breakbeat.py:244-276 | a run with a fresh cursor reviews every message that the cursor passes |
| ReviewRuns.CursorStaysInView | Turning-Good-Agent/proactive/breakbeat.py:232-276 | on a growing list the message of the cursor stays in view over all runs |
| ReviewRuns.KnownPositionsMissNothing | Turning-Good-Agent/proactive/breakbeat.py:130-276 | on any lists, while the cursor is fresh at known positions and messages arrive in order, every passed message was reviewed |
| ReviewRuns.FreshRunsMissNothing | Turning-Good-Agent/proactive/breakbeat.py:130-276 | on a growing list with messages arriving in order, while the cursor stays fresh, every message that it passed was reviewed |
| ReviewLaws.SelectedExactly | Turning-Good-Agent/proactive/review_window.py:33-89 | a message is selected if and only if it is a user or assistant message up to now, new to the cursor, and inside the period unless the cursor is |
| ReviewLaws.EmptySelectionMovesOn | Turning-Good-Agent/proactive/breakbeat.py:244-276 | with nothing selected the cursor moves to the newest message seen, unless none is new |
| ReviewLaws.SuccessReviewsAll | Turning-Good-Agent/proactive/breakbeat.py:244-276 | when all batches succeed, exactly the selected messages were reviewed and the cursor is at the newest message seen |
| ReviewLaws.FailureKeepsTheCursor | Turning-Good-Agent/proactive/breakbeat.py:244-276 | when the first batch does not succeed, nothing counts as reviewed and the cursor stays |
| Breakbeat.BreakbeatManager.AdvanceCursor | Turning-Good-Agent/proactive/breakbeat.py:376-386 | only a given cursor is written, and only for its session |
| Breakbeat.BreakbeatManager.ReviewSelection | Turning-Good-Agent/proactive/breakbeat.py:244-276 | the cursor follows exactly the batches before the first that fails or raises |
| Breakbeat.BreakbeatManager.Run | Turning-Good-Agent/proactive/breakbeat.py:130-190 | each session up to the first refused selection or raised error takes one step with exactly the batches before the first that did not succeed; there the run stops, and every other cursor stays |
| Compaction.CompleteTurns | Turning-Good-Agent/memory/short_term.py:102-114 | complete turns are exactly the adjacent user and assistant pairs, in order |
| Compaction.RecentWindow | Turning-Good-Agent/memory/short_term.py:57-69 | the kept messages are the longest suffix of complete turns within the limit |
| Compaction.JoinedTurnsAreWindow | Turning-Good-Agent/memory/short_term.py:57-69 | the last turns joined are the messages of turns from one position on |
| Compaction.PartsAddUp | Turning-Good-Agent/memory/short_term.py:44-55 | window and rest share out all messages and tokens |
| Compaction.NothingIsLost | Turning-Good-Agent/memory/short_term.py:44-46 | splitting by id loses nothing if and only if no message outside the window has an id from inside |
| Compaction.EqualIdsLoseMessages | Turning-Good-Agent/memory/short_term.py:44-46 | with equal ids a message is dropped from both parts |
| Compaction.PlanCompaction | Turning-Good-Agent/memory/short_term.py:32-55 | with distinct ids the plan's two parts keep order and their tokens add up to the whole |
| ToolCalls.ExecuteParallelBatch | Turning-Good-Agent/runtime/tool_call_runner.py:86-104 | calls finish in any order, each with a result that may depend on those before it; each runs once, and the records are in the order asked, each from its own execution |
| ToolCalls.ExecuteCalls | Turning-Good-Agent/runtime/tool_call_runner.py:40-59 | one record per call in order, however the calls are grouped; one call overtakes another only inside a batch of safe neighbours |
| ToolCalls.ExecuteParentCalls | Turning-Good-Agent/runtime/agent_loop.py:314-395 | every call gets the record of its own single execution at its own place, across ordinary groups and delegations; an error exactly when a waited-for call raises |
| ToolCalls.OwnOutcome | Turning-Good-Agent/runtime/tool_call_runner.py:61-104 | for every finishing order, a record has the id of its call and what its own execution gave; a delegation loses its attachments, and one that is not allowed is refused and never executed |
| Transcript.AttachOne | Turning-Good-Agent/runtime/agent_loop.py:227-237 | a refused attachment replaces the answer of its own call in place, an accepted one is appended |
| Transcript.AnswerCalls | Turning-Good-Agent/runtime/agent_loop.py:215-237 | the answers stand one for one in order before all attachments |
| Transcript.AttachedInOrder | Turning-Good-Agent/runtime/agent_loop.py:227-237 | the texts of the accepted attachments stand in order, and there are no others |
| Transcript.ApplyTurnControl | Turning-Good-Agent/runtime/agent_loop.py:419-443 | guidance is appended in order without its blank texts, and nothing on a stop |
| Transcript.GuidanceExactly | Turning-Good-Agent/runtime/agent_loop.py:419-443 | each text that is not blank becomes one message of the user after the fixed words, in order |
| Transcript.AddRound | Turning-Good-Agent/runtime/agent_loop.py:189-225 | an asking message with its answers keeps a transcript complete |
| Transcript.ExecuteAsked | Turning-Good-Agent/runtime/agent_loop.py:189-237 | after the asking message stand its answers, each the content of its own call's record or why its attachment was refused, and then the accepted attachments |
| Transcript.RunRound | Turning-Good-Agent/runtime/agent_loop.py:150-253 | the loop goes on exactly when the model asked, every tool ran and nobody stopped the turn; otherwise the turn ends as cancelled, timed out, failed, completed or raised exactly under the stated conditions; what a round adds, and a complete transcript |
| Transcript.Run | Turning-Good-Agent/runtime/agent_loop.py:150-284 | the turn ends in the first round that does not go on, or with the summary after the last; every transcript given to the model is complete, the final one too unless the turn was stopped or interrupted right after the model asked; the exact number of model calls |
| SkillFile.ParseMapping | Turning-Good-Agent/skills/validator.py:48-68 | the lines are read in order, up to an error |
| SkillFile.NothingChangesNothing | Turning-Good-Agent/skills/validator.py:48-53 | blank lines and comments may stand anywhere |
| SkillFile.TopPairSets | Turning-Good-Agent/skills/validator.py:54-68 | a plain pair at the top level sets its key and ends a mapping |
| SkillFile.IndentedPairAdds | Turning-Good-Agent/skills/validator.py:54-68 | an indented pair goes into the mapping opened last, and is an error when none is open |
| SkillFile.BareKeyOpens | Turning-Good-Agent/skills/validator.py:54-68 | a key without a value opens an empty mapping |
| SkillFile.FrontMatterEnds | Turning-Good-Agent/skills/validator.py:37-46 | the rendered front matter ends where it was rendered to end |
| SkillFile.OneLineReadsBack | Turning-Good-Agent/skills/validator.py:17-35 | what validating a rendered file gives for any one-line description |
| SkillFile.DescriptionsAreOneLine | Turning-Good-Agent/skills/validator.py:48-95 | no description that is read has a line break |
| SkillFile.RenderedSkillReadsBack | Turning-Good-Agent/skills/creator.py:28-31 | name, description and trimmed body read back if and only if the description is one trimmed line with a plain start |
| SkillFile.QuotedDescriptionLosesItsQuotes | Turning-Good-Agent/skills/validator.py:81-95 | a quoted description is accepted and reads back without its quotes |
| SessionIds.BigEndianReadsBack | Turning-Good-Agent/gateway/routing.py:27-27 | eight octets hold every length below 2^64 |
| SessionIds.PartIsPrefixFree | Turning-Good-Agent/gateway/routing.py:25-27 | an encoded part can be read off the front of any octets |
| SessionIds.PayloadIsInjective | Turning-Good-Agent/gateway/routing.py:11-17 | different routes hash different octets |
| SessionIds.PayloadExists | Turning-Good-Agent/gateway/routing.py:11-27 | a route is accepted if and only if no part is empty and every length fits |
| SessionIds.PayloadLayout | Turning-Good-Agent/gateway/routing.py:11-27 | the hashed octets are the fixed text and then principal, channel and conversation, each after its length |

## Left out

- Gateway: a route stands for its session id, since the two are in bijection. A run assumes, in `GatewayProtocol.Enabled`, that a delivery report names a turn that is no longer unfinished on its route, and that the coordinator starts again after a close only when no task of its earlier life is left.
- GatewayTurns.FailingChainEnds: the chain of one call, undisturbed; what arrives meanwhile is in `GatewayTheorems.DispatchesAreBounded`.
- Gateway: cancelling a task while it waits for the rollback lock, outbound payloads and `resync`, and the control code of the Web and command-line coordinators are not modelled.
- Runtime supervisor: error texts, closing the current runtime at shutdown, and code that uses the current runtime without acquiring it.
- Slots: a turn leaves only when the waits of its approvals have ended, by a decision or a cancellation.
- RunAgreement.LogAgreesWithRun: the event sink does not raise; texts, labels, durations and usage are arbitrary, and redaction and whitespace of worker output are not modelled. One control object follows one run; `RunRecovery.RunsAreIndependent` covers logs of several.
- Event log: nested or unhashable JSON values, the usage summary, and reading and writing files; recovery is modelled for one session at a time.
- Worker execution: model calls, progress timeouts and cancellation of a worker task are one arbitrary outcome.
- CronSchedule.ScanDecided: for fixed offsets from the year 1 on only; real time zones and daylight saving enter only `NextCronFire`, as an arbitrary map from UTC minutes to local time, and the end of the calendar is not modelled.
- CronParse.Parse: which characters are decimal digits is a parameter, with the ordinary ones among them; texts of other digit characters are errors in both.
- Cron jobs: prompts, delivery channels, usage, notifications and incidents; saving is atomic and does not fail; ids are never reused and the clock does not go back. The next firing is an arbitrary function whose result lies after the instant asked about, which `CronSchedule.NextCronFire` provides. A deletion may end at any time in `CronRuns`, also before its task did.
- Review: parsing of time stamps, the model's actions on the item snapshot, and the schedule of the runs; ids are distinct within a session, an id keeps its time, token counts are not negative, and saving a cursor does not fail.
- Compaction: the summary itself; token counts are not negative.
- Transcript: streaming, usage, the content of the final reply and the kept tool records; attachments are messages with a role and a text, and the budgets that admit them are an arbitrary decision, as are deadlines and context checks.
- ToolCalls.ExecuteParallelBatch: the semaphore inside a batch does not bound how many calls run at once here.
- SkillFile.RenderedSkillReadsBack: for the text in memory; newline translation on writing and reading a file and the file system checks are not modelled. Whether a text is JSON is an arbitrary predicate, and the value is kept as its text.
- SessionIds.PayloadIsInjective: SHA-256 itself, and texts with lone surrogates, which the source refuses to encode.
- The seven-state turn table, settings validation, notifications, attachment budgets, account registries and rebinding, and all network, file and process code would only add easy members.
