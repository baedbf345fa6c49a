# Runspool's engine and plugin kernel, modelled and proved

Runspool runs tasks through workflows of steps. Workers, a scheduler, crash recovery, users and
clients of external work items all write the same rows, and each acts on rows it read earlier. This
project models that protocol and proves what it promises over every interleaving; and it models the
plugin kernel, whose fibers load and unload each other's services, and proves what every cascade
leaves behind.

`dafny verify dfyconfig.toml` checks everything.

## How the model is built

**The protocol.** A task's rows (task row, work items, step runs, spawn rows, events) are a `Record`;
each transaction of the store is one function on it (`Records`), and what the state machine and a
worker decide from a row is a function too (`StateMachine`, `Worker`). `Protocol.Step` lets any actor
take one atomic step: a claim, one statement of a worker's program, a heartbeat, the death of a
worker, a settling, a user request, a client's claim of an item, an administrator's write. Every
actor may act on *any earlier version* of the row (`past`), so every stale read is covered. A worker
is a program counter with the locals it read (`Worker.PC`), because every row may change between any
two of its statements. `Invariant` and `InvariantProof` hold the inductive invariant; `Safety`,
`Lifecycle`, `Spawning`, `Progress` and `FinishSteps` what follows over whole runs; `Witnesses` builds
runs that show where a property stops. `Endings`, `Requests` and `Recoveries` say, over the actions
themselves, where a boundary, a request or a settling leaves its task; `Jobs` follows a worker's
statements from end to end; `Trails` reads the event log back.

**The executor.** `Executor` adds the executor lock, recovery, the scheduler with its separate reads,
the in-flight table, and processes that die at any moment. Every deed makes at most one step of the
protocol. `ExecutorProof`, `Runs` and `Quotas` hold what only the lock gives: no live worker is
stale, runs are approved, quotas hold. `Schedules` says what the scheduler does with each task it comes
to; `FinalStates`, `Restarts`, `Waiting` and `Recoveries` say over
whole histories how workflows end, that nothing runs again unasked and nothing before its time, and what
recovery leaves; `Overruns` is a history that exceeds a quota. `Grants` is the text of the approval column.

**The store and run_until_idle.** `Stores.Store` is the store as an object whose methods write rows
in place and roll back when a hook raises; each is proved against the function the protocol uses.
`Machines` is the state machine and the worker's statements as methods that call the store's, and
`Machines.Perform` shows that every action of the protocol is what they do. `Idle` is
`run_until_idle`: loops of scheduling rounds and jobs, each job a loop over the worker's program;
`Crowds` is where its cap stops it.

**The kernel.** Plugins are data: the services they inject, what their `apply` does in order
(provide, mount a child, listen, fail), and whether their `apply`, or the disposer it returns, disposes
their own fiber, which the kernel puts off until the transition ends. `Kernels.Kernel` is the kernel
as an object whose methods call each other as the source's do, with a termination measure. Its
contracts are about values (`KernelState.State`); the other `Kernel*` modules hold the frames, the
invariant and the proof steps. Three notions recur in the table. *Quiet* (between operations):
nothing is in transition, every loaded fiber can use exactly the registrations it was loaded against,
and no fiber could load that has not; it includes well-formedness: the tree of fibers, the fiber list,
the services table, the listener lists and every fiber's effects agree. *Whole*: every loaded plugin
has registered exactly what its `apply` does, and is not one that disposed itself as it loaded.
A *context* says which part of the tree a cascade may touch: going up, things are only loaded below
the fiber being loaded; going down, things are only unloaded.

## Where the plain statement fails

- `finish_step`'s five attempts resolve the claim if retry columns are written at most twice during
  the call (`FiveRoundsSuffice`). In general n attempts do if fewer than n requests and retry-column
  writes are still to come (`EnoughRounds`); as soon as there are n, from whatever state, some
  schedule spoils them all (`SpoilersSuffice`).
- Quotas hold unless a forced set-step moves a listed task between the queue read and its claim, and
  such a claim breaks a quota exactly when the new step is already full (`QuotaHeld`,
  `ClaimBreaksQuotaIff`); there is a history in which that happens (`ForcedOverQuota`).
- `next_step` looks a name up by its first position, and `WorkflowDef` does not check that names are
  distinct. A task's claims are bounded if and only if every name after its step's first position
  occurs there for the first time (`FinishesIff`, `ClaimsBoundedIff`); from the first step that means
  distinct names (`FirstFinishesIff`), and otherwise there are runs with any number of claims
  (`EndlessClaims`).
- `StepRunLog.start` and `finish` take no token, so a worker whose claim is gone can still write
  step-run rows: exactly when it is about to start a run, or to close one with a new status
  (`StaleRuns`), and such states are reachable (`StaleWorkerRuns`). Fencing therefore covers the task
  row, work items, spawn rows and events (`Fenced`), and statements about runs hold under the executor
  lock (`RunsAreItsOwn`, `NotStartedAgain`).
- `run_until_idle` caps its rounds at one claim per step of the longest workflow, but a rejected
  submission costs a further claim. Without rejections the cap is never reached; with them it is not
  if steps left plus submissions to judge stay below it (`RunUntilIdle`, `TotalWithRejections`), and
  fifty-one rejected submissions to a step of quota one are stopped with work left (`RejectedCrowd`).

## Model

| member | source | states |
|---|---|---|
| InvariantProof.StepKeeps | src/runspool/persistence/repository.py:252-385 | one atomic step of any actor, on any stale read, keeps the invariant of every task |
| InvariantProof.Reachable | src/runspool/persistence/state_machine.py:198-223 | the invariant holds in every reachable state |
| Safety.Fenced | src/runspool/persistence/repository.py:335-385 | a worker whose claim is gone changes no task row, work item, spawn row or event, and creates nothing, whatever statement or heartbeat it executes |
| Safety.FencedForever | src/runspool/persistence/state_machine.py:279-325 | a lost claim stays lost, and after any further run its worker still changes nothing |
| Safety.StaleRuns | src/runspool/persistence/step_run_log.py:14-36 | the one thing a worker without its claim can change is a step-run row: it does so if and only if it is about to start a run, or about to close a run whose status differs |
| Witnesses.StaleWorkerRuns | src/runspool/persistence/step_run_log.py:14-36 | from any good state with a queued plain task there is a run after which a worker without the claim, on a current read, adds a step run |
| Safety.ReleasedOnce | src/runspool/persistence/state_machine.py:699-757 | in every interleaving each claim token is released by at most one transition and never holds the task again |
| Safety.ItemsAgree | src/runspool/persistence/work_items.py:89-230 | a task awaits external work if and only if it has an open or claimed item; it has at most one active item, on its current step; a finished task has none |
| Safety.NoItemConflict | src/runspool/persistence/state_machine.py:353-381 | no worker's boundary ever violates the one-active-item index or raises ItemConflict |
| Safety.SeekBranches | src/runspool/engine/runner.py:339-354 | the claim holder finds a submission to judge or no item: the branches for another step's item and for reusing one are unreachable |
| Safety.AttemptsCount | src/runspool/engine/runner.py:355-394 | items of a step count attempts 1, 2, ... by rejection, always within the limit; an item is exhausted only on the last attempt, and a later attempt carries the error of the one before |
| Safety.RejectionEnds | src/runspool/persistence/state_machine.py:502-530 | a committed rejection closes its item, exhausted if and only if no attempt is left, and then the task goes to manual_required or terminated in the same transition |
| Trails.AuditTrail | src/runspool/persistence/state_machine.py:198-223 | in every reachable state the event log accounts for the task: replayed, it gives the status (up to what degraded steps make of a finished task), and while no user has set a field, the task has advanced from its first step exactly as often as a step was logged completed |
| Endings.SuccessEnds | src/runspool/persistence/state_machine.py:419-444 | when the claim holder releases its claim after a success, on whatever read: at the end of the workflow the task is finished, else it is on the next step, paused exactly if a pause was requested and else queued, so no resume runs the step again; no retry is counted |
| Endings.TerminateEnds | src/runspool/persistence/state_machine.py:406-417 | it ends terminated if and only if a terminate was requested, whatever the outcome; flags and lock are cleared |
| Endings.FailureEnds | src/runspool/persistence/state_machine.py:548-586 | one retry more; manual_required exactly beyond the budget or for a step that opted out, else paused exactly if a pause was requested, else failed until now plus the configured delay |
| Endings.DeferEnds | src/runspool/persistence/state_machine.py:532-546 | same step, no retry counted; paused exactly if requested, else queued until now plus the delay, or at once for a delay of zero |
| Endings.DenialEnds | src/runspool/persistence/state_machine.py:446-456 | a refused step needs a person, also under a pause |
| Endings.ApprovalEnds | src/runspool/persistence/state_machine.py:458-480 | approval is asked for exactly the attempt that was to run; under a pause nothing has been asked |
| Endings.ExternalEnds | src/runspool/persistence/state_machine.py:482-500 | exactly one new open item of the step, its attempt one more than a rejected predecessor's, whose error it carries, else the first; under a pause none |
| Endings.RejectionEnds | src/runspool/persistence/state_machine.py:502-530 | the judged item is closed, rejected or exhausted by its attempts left, with the reason and the run; no other item changes; the status follows |
| Endings.AcceptedEnds | src/runspool/persistence/state_machine.py:353-381 | a success closes the submission it validated as accepted, with its run |
| Endings.SpawnEnds | src/runspool/persistence/state_machine.py:341-395 | a spawning step's updates and the end of its run are written whatever the transition; its plan is carried out in full unless the task is terminated, and then not at all |
| Endings.EndKeeps | src/runspool/persistence/state_machine.py:402-586 | what a boundary leaves alone: workflow, parent, grant, retries, error and progress, but for the outcome each belongs to |
| Jobs.JobBegins | src/runspool/engine/runner.py:97-128 | a request made while the job waited is honoured without a run; otherwise the attempt is one more than the step's runs |
| Jobs.GateEnds | src/runspool/engine/runner.py:396-433 | the step goes on exactly if nobody objects and a needed approval was granted for this attempt; otherwise, two statements later, no run was started and a person is asked for this attempt, or it waits for the listener's delay, or it needs a person |
| Jobs.ExternalOpens | src/runspool/engine/runner.py:322-394 | an admitted external step without an item ends waiting on one new item; a broken request or a limit below one fails it; no run is started |
| Jobs.RunStarts | src/runspool/engine/runner.py:166-170 | progress is cleared and one open run of the step, the newest, is added; an external step is called with the submission to judge |
| Jobs.StepAnswers | src/runspool/engine/runner.py:170-295 | from the step's answer to the end of the job: a result, not-ready, a turned-down submission or an exception closes the run as ok, degraded, deferred, rejected or failed, and leaves the task advanced, put off by its delay, with its item closed, or with one retry more |
| Jobs.StepReturns | src/runspool/engine/runner.py:189-207 | updates are written before the run is closed, or with children go into the plan with exactly those children; a request for children that does not hold up fails the step |
| Requests.RequestEnds | src/runspool/persistence/state_machine.py:240-253 | on a current read each user request is accepted exactly in its allowed states; on any read, an accepted one changes exactly its columns and its item, and a refused one nothing |
| Requests.ClaimEnds | src/runspool/persistence/repository.py:252-281 | a claim wins exactly if the task is queued, writes the four lock columns and ends its waiting time; otherwise nothing changes |
| Requests.BeatEnds | src/runspool/persistence/repository.py:335-355 | only the holder's heartbeat changes the row, and only heartbeat and progress |
| Requests.TakeEnds | src/runspool/persistence/work_items.py:89-117 | an item is taken exactly if it is open, and then its task waits for it |
| Requests.GiveEnds | src/runspool/persistence/work_items.py:119-147 | an item is given back exactly by the client that has it or an operator |
| Requests.ItemsLast | src/runspool/persistence/work_items.py:151-230 | over every run items only accumulate, keep step, attempt and limit, and stay closed as they were closed |
| Lifecycle.FlagsAgree | src/runspool/persistence/state_machine.py:761-791 | the pause flag is set exactly in pause_pending, a terminate request only while executing, and the lock columns are null exactly outside execution |
| Lifecycle.TerminateWins | src/runspool/persistence/state_machine.py:402-444 | after a terminate request on an executing task the step never changes, it is never claimed again, no child is spawned, and its claim is released only into terminated |
| Lifecycle.FinishedForever | src/runspool/persistence/state_machine.py:881-910 | a finished task keeps its status and step for ever |
| Lifecycle.StaysParked | src/runspool/persistence/state_machine.py:793-816 | a paused, manual or finished task gets no claim and no new worker until a user's retry or resume |
| Lifecycle.NotRetriedUnasked | src/runspool/persistence/state_machine.py:548-586 | after a run of a retry=False step failed, or was interrupted and settled, the task gets no claim and no new worker until a user's retry or resume, whatever budget, pauses and stale workers there are |
| Restarts.NotStartedAgain | src/runspool/persistence/state_machine.py:548-586 | under the executor lock no run of any step is started either: after such an end, in every later history without a user's retry or resume of the task, its list of runs has the same steps and it stays parked |
| Spawning.SpawnRows | src/runspool/persistence/repository.py:105-168 | created plus existing equals the plan's size; one spawn row per created child, with its id, key, step and run |
| Spawning.SpawnsFresh | src/runspool/persistence/repository.py:105-168 | the children created are exactly the plan's unkeyed ones and those of new keys; keys stay unique |
| Spawning.SpawnedExactlyOnce | src/runspool/persistence/state_machine.py:383-395 | in every reachable state a parent has exactly one child per key of its committed plans, as many unkeyed children as they planned, and a child exists if and only if a committed transition of its parent lists it |
| Spawning.ChildrenStart | src/runspool/persistence/repository.py:105-168 | a created child is queued on its workflow's first step, with its plan's retries, its parent's id and no history |
| FinishSteps.FinishStep | src/runspool/persistence/state_machine.py:279-325 | the retry loop computes the function Rounds, whatever others do before each read and between read and write |
| FinishSteps.EnoughRounds | src/runspool/persistence/state_machine.py:290-325 | with more attempts than pending spoilers (requests not yet made, retry-column writes), the claim is resolved on return and no attempt raises |
| FinishSteps.FiveRoundsSuffice | src/runspool/persistence/state_machine.py:70 | five attempts resolve the claim if retry columns change at most twice during the call |
| FinishSteps.SpoilersSuffice | src/runspool/persistence/state_machine.py:290-325 | from every state of a claim holder and for every number of attempts: once requests not yet made and retry-column writes together reach that number, some schedule by others makes every attempt fail, and it gives up holding the claim |
| Progress.FinishesIff | src/runspool/models.py:92-98 | advancing from a step comes to the end of the workflow if and only if every name after its first position occurs there for the first time; otherwise it goes on for ever |
| Progress.FirstFinishesIff | src/runspool/models.py:92-98 | from the first step it comes to the end if and only if all names are distinct |
| Progress.ClaimsBounded | src/runspool/persistence/state_machine.py:419-444 | in every run without user actions, settling, deferral or rejection, on a workflow that finishes from the task's step, claims made plus claims left never exceed the budget of steps and retries |
| Witnesses.EndlessClaims | src/runspool/persistence/state_machine.py:419-444 | where advancing never ends, for every n there is such a run with n claims, in which the task is queued again (every step registered, not external, without side effects) |
| Witnesses.ClaimsBoundedIff | src/runspool/persistence/state_machine.py:419-444 | so a queued task's claims are bounded at all if and only if its workflow finishes from its step |
| Progress.QueuedClaims | src/runspool/persistence/state_machine.py:548-586 | a queued task at index i of S steps, from where the workflow finishes, with r of m retries used is claimed at most (S - i) + (m - r) + 1 times |
| Progress.FailedWithinLimit | src/runspool/persistence/state_machine.py:548-586 | a failed task has used at most max_retries, in every run without a direct write of max_retries |
| Worker.GateAnswer | src/runspool/core/runtime.py:53-88 | a step is allowed if and only if no listener, guard or contract objects and, where approval is needed, the attempt has its grant; approval is asked for exactly where it is needed, not yet granted and asked of the user |
| ExecutorProof.OneLiveWorker | src/runspool/daemon.py:99-125 | in every history at most one live worker per task exists, it holds the task's claim, and without the lock there is none |
| ExecutorProof.RecoveryIsComplete | src/runspool/daemon.py:64-76 | once recovery is over nothing executes under a claim older than this process, whatever users did meanwhile |
| Recoveries.SettleEnds | src/runspool/persistence/state_machine.py:699-757 | a settling that releases the claim, on whatever read, leaves the step and counts no retry: terminated if and only if requested, else paused if and only if pausing, else manual_required if and only if the step must not be retried, else queued as it was; a reclaim only if the heartbeat has not moved since it was read |
| Recoveries.RecoverySettles | src/runspool/daemon.py:64-76 | in every history, once recovery is over, however many recovering processes died before, a task that executed when nobody held the lock is settled so, if nobody acted on it; an ordinary step is queued again |
| Recoveries.OnlyStill | src/runspool/persistence/state_machine.py:717-757 | in every history, a reclaim that releases a claim leaves the heartbeat where this settling of the task first read it |
| Schedules.QueueClaims | src/runspool/engine/coordinator.py:58-89 | when nobody has touched it since it was read: a queued task whose time has come, below its step's quota as counted, of a known workflow and step whose when() says yes, is claimed, in flight under the claim just drawn, and counted |
| Schedules.QueueSkips | src/runspool/engine/coordinator.py:77-80 | one whose when() says no moves to its next step, or finishes, without a claim and uncounted |
| Schedules.QueuePasses | src/runspool/engine/coordinator.py:60-76 | every other queued task is passed over and nothing happens |
| Schedules.RequeueTurnEnds | src/runspool/engine/coordinator.py:110-119 | a failed task that was due is queued again with its retry time cleared, and off the list |
| Schedules.ReclaimTurn | src/runspool/engine/coordinator.py:105-128 | a task read as stale is settled unless its claim is the very one a job in flight holds |
| Schedules.Settles | src/runspool/persistence/state_machine.py:699-757 | a settling nobody disturbs ends as SettleEnds says, in one write, then closes exactly the open runs as interrupted, and leaves the in-flight table alone |
| Waiting.NeverEarly | src/runspool/engine/coordinator.py:58-64 | in every history, whenever the scheduler claims, skips or requeues a queued or failed task, its clock has shown the task's next_retry_at or later |
| Waiting.StaysWaiting | src/runspool/persistence/repository.py:220-229 | a deferred task, or a failed one waiting for its retry, stays exactly as it is in every later history in which nobody acts on it and the clock has not reached its time |
| ExecutorProof.ReclaimPickKeeps | src/runspool/engine/coordinator.py:105-128 | a task read as stale and not in flight under that very token has no live worker |
| ExecutorProof.CleanupKeeps | src/runspool/engine/coordinator.py:91-103 | an ended job's cleanup keeps every live worker in flight: it never removes a newer claim's entry |
| ExecutorProof.HistoryOk | src/runspool/executor_lock.py:52-84 | the executor's invariant holds in every history of acquiring, dying, releasing, scheduling, working and outside actions |
| Runs.RunsAreApproved | src/runspool/engine/runner.py:396-433 | a run's number is how many runs its step has up to it: 1 for the first, one more for each next; every started run of a side-effect step has an approval of exactly (task, step, number) on record, and no two runs share a number |
| Runs.ApprovedBeforeStart | src/runspool/engine/runner.py:127-170 | the attempt is one more than the step's runs, the number the run will have, and its approval is on record before it starts |
| Runs.RunsAreItsOwn | src/runspool/persistence/step_run_log.py:14-70 | while a worker lives nobody else changes its task's runs |
| Runs.ClosedRun | src/runspool/persistence/repository.py:83-103 | closing the newest open run as degraded or ok changes has_degraded's answer exactly by that run |
| FinalStates.FinalStatusAlways | src/runspool/persistence/state_machine.py:235-238 | in every history whose answers of has_degraded were true when they were read, every finished task is partially_completed if and only if some step's latest run is degraded: by a worker's boundary, ordinary or spawning, or by a skipped last step (lines 635-664), however much later the write comes |
| Grants.TextInjective | src/runspool/engine/gate.py:55-66 | no two grants have the same text, for any step names, colons included |
| Grants.GrantedMeansThisAttempt | src/runspool/engine/gate.py:55-59 | comparing texts grants exactly this step and attempt |
| Grants.ApproveByText | src/runspool/persistence/state_machine.py:818-843 | approve parses back what was asked: accepted for exactly the rows the state machine accepts, and it writes the grant of the attempt asked for |
| Quotas.CountCovers | src/runspool/engine/coordinator.py:50-57 | reading running before pause_pending counts every task still executing, at least once |
| Quotas.QuotaHeld | src/runspool/engine/coordinator.py:58-89 | executing tasks per step never exceed the quota, in every history without a forced set-step on a listed task |
| Quotas.ClaimBreaksQuotaIff | src/runspool/persistence/repository.py:252-281 | a claim breaks a quota if and only if the task has left its listed step for one already full |
| Overruns.ForcedOverQuota | src/runspool/engine/coordinator.py:58-89 | it happens: a history from the start, with one forced set-step between the queue read and the claim, after which two tasks execute a step whose quota is one |
| Machines.Perform | src/runspool/persistence/state_machine.py:198-223 | every action of the protocol, performed by calls of the store's methods, leaves the store with exactly the rows, children and next id of the protocol's next state, and the jobs it says |
| Machines.ClaimTask | src/runspool/persistence/state_machine.py:255-277 | the state machine's claim, through the store, is ClaimRound |
| Machines.FinishAttempt | src/runspool/persistence/state_machine.py:290-325 | one attempt of finish_step, with its hooks, is the worker's Finish: rows, children and next statement |
| Machines.RunStatement | src/runspool/engine/runner.py:97-295 | each statement of a worker writes, through the store, what JobStep says, and goes on where it says |
| Machines.SettleTask | src/runspool/persistence/state_machine.py:699-757 | settling through the store is SettleRound, and reports whether it committed |
| Machines.UserAction | src/runspool/persistence/state_machine.py:240-253 | a user's request through the store is UserRound, and reports whether it applied |
| Machines.SkipStep | src/runspool/persistence/state_machine.py:635-664 | skipping a step through the store is SkipRound |
| Stores.OneClaimWins | src/runspool/persistence/repository.py:252-281 | of two claimants of a queued task exactly one wins |
| Stores.OneClientWins | src/runspool/persistence/work_items.py:89-117 | of two clients of an open item exactly one wins, and only its token submits |
| Stores.Store.Spawner | src/runspool/persistence/repository.py:105-168 | the loop over a plan inserts exactly the children, spawn rows and event that SpawnAll computes |
| Stores.Store.ItemHook | src/runspool/persistence/work_items.py:151-214 | opening is refused exactly while an active item exists, and no change of an item breaks the one-active-item rule; what it writes is ChangeItem |
| Stores.Store.Hooks | src/runspool/persistence/work_items.py:233-245 | the chained hooks write what the protocol's RunHooks computes, or nothing |
| Stores.Store.Transition | src/runspool/persistence/repository.py:283-333 | compare-and-set with events and hooks in one transaction; if a hook raises every row is as before |
| Stores.Store.Claim | src/runspool/persistence/repository.py:252-281 | whether it won; a winner's token is the only one that holds the task, and a loser wrote nothing |
| Stores.Store.Write | src/runspool/persistence/repository.py:357-385 | a write with a token lands exactly if that token is in the lock column; one without always |
| Stores.Store.Start | src/runspool/persistence/step_run_log.py:14-20 | a started run is the newest, under its own id |
| Stores.Store.End | src/runspool/persistence/step_run_log.py:22-36 | ending a run touches no other run |
| Stores.Store.CloseAll | src/runspool/persistence/step_run_log.py:57-70 | no run of the task is left open, and it reports none exactly if nothing changed |
| Stores.Store.Beat | src/runspool/persistence/repository.py:335-355 | a heartbeat writes exactly for the holder of the claim |
| Stores.Store.TakeItem | src/runspool/persistence/work_items.py:89-117 | claims an open item of a waiting task, or changes nothing |
| Stores.Store.GiveItem | src/runspool/persistence/work_items.py:119-147 | gives a claimed item back to its holder's or an operator's request, or changes nothing |
| Stores.AnyDegraded | src/runspool/persistence/step_run_log.py:46-55 | the loop over the runs answers whether the latest run of some step is degraded |
| Stores.PlanChildren | src/runspool/engine/children.py:82-142 | accepts a spawn request if and only if every child is well-formed, of a defined workflow, and no key is used twice; plans each child on its workflow's first step |
| Idle.TotalWithRejections | src/runspool/persistence/state_machine.py:502-530 | where validators may turn submissions down, the claims left are the steps left plus the number of submissions still to judge |
| Idle.RunJob | src/runspool/engine/runner.py:97-295 | a job whose step returns, or whose submission is turned down, ends, released, without adding to the claims left |
| Idle.RunJobs | src/runspool/engine/coordinator.py:91-103 | the jobs chosen end, no other task changes, and exactly the others remain in flight |
| Idle.Drain | src/runspool/core/runtime.py:278-283 | all jobs in flight end; nothing executes and nothing has failed |
| Idle.RequeueDue | src/runspool/engine/coordinator.py:110-119 | exactly the failed tasks whose time has come are queued again, and counted |
| Idle.Tick | src/runspool/engine/coordinator.py:45-89 | no task changes but queued ones whose time has come, of a known workflow and step with a positive quota, with a worker if its when() says yes and to its next step without one if not, and per step no more get a worker than its quota; every unit of progress takes a claim off what is left; a round without progress changes nothing and finds nothing runnable |
| Idle.LongestWorkflow | src/runspool/core/runtime.py:274-276 | the longest workflow's number of steps, one if there is none |
| Idle.RunUntilIdle | src/runspool/core/runtime.py:274-290 | let every task be on a step its workflow finishes from and not failed, external steps allow an attempt, and during the call no step fails, defers or spawns, no gate delays, and nobody else acts. Then it stops because nothing due is runnable, or at its cap. Without rejections it always stops before its cap of tasks x max_steps + 50; with them it does if the steps left plus submissions to judge are fewer than the cap; and on one external step of quota one whose validator turns everything down, exactly then; throughout, a task that is not queued, or whose time no reading of the clock has reached, is not touched |
| Crowds.RejectedCrowd | src/runspool/core/runtime.py:274-290 | n submissions to a one-step workflow of the default quota, all turned down: the loop ends idle if and only if n < 50, and from 51 on the cap stops it with due tasks left queued |
| KernelFixpoint.LeastFixpoint | src/runspool/kernel/fiber.py:265-297 | in every quiet and whole state in which no plugin has failed, or is gone but for disposing itself as it loads, the services are the least closed set, the loaded fibers are exactly those whose services are all there (and that do not dispose themselves as they load), and each recorded epoch matches the serials in the table |
| KernelFixpoint.OrderIndependent | src/runspool/kernel/fiber.py:538-594 | two kernels with the same top plugins and base services agree on services and loaded plugins, however they got there |
| Kernels.Kernel.constructor | src/runspool/kernel/fiber.py:449-461 | a new kernel is quiet and whole |
| Kernels.Kernel.Plug | src/runspool/kernel/fiber.py:523-536 | mounting a plugin leaves the kernel quiet; if it did not load, failed or disposed itself, nothing but its own new fiber has changed, and no load was begun but its own and those of fibers below it |
| Kernels.Kernel.Offer | src/runspool/kernel/fiber.py:538-565 | providing is refused exactly for reserved and taken names, changing nothing; else the kernel is quiet again with the service in place |
| Kernels.Kernel.Unplug | src/runspool/kernel/fiber.py:236-263 | disposing leaves the kernel quiet without the fiber; its effects were undone once each, newest first, its dependents unloaded before the first of them; who is gone stays gone (also Plug, Offer, Withdraw, Restart) |
| Kernels.Kernel.Restart | src/runspool/kernel/fiber.py:226-234 | reloading leaves the kernel quiet; the fiber was tried again, unless it is gone or its services are missing; one that was gone stays as it is; as every operation, it begins no load of a fiber that is gone |
| Kernels.Kernel.Unregister | src/runspool/kernel/fiber.py:551-554 | as its provider is unloaded, withdrawing a service unloads whoever injects it, and touches nothing above the zone |
| Kernels.Kernel.Withdraw | src/runspool/kernel/fiber.py:92-109 | a loaded provider, or the application, takes a service back early: it works once, the kernel is quiet again without the service, nobody loaded injects it, nothing was loaded, the provider keeps its other effects, and no fiber went but those that rest on something at least as young |
| Kernels.Kernel.UndoLast | src/runspool/kernel/fiber.py:92-109 | undoes exactly the newest effect, once, and leaves the rest of the fiber's list |
| Kernels.Kernel.DisposeChild | src/runspool/kernel/fiber.py:523-536 | the disposer of a mounted child removes it and leaves its parent's other effects alone |
| Kernels.Kernel.RunDisposers | src/runspool/kernel/fiber.py:352-354 | every effect of the fiber is undone exactly once, in reverse order of registration |
| Kernels.Kernel.Unload | src/runspool/kernel/fiber.py:338-350 | dependents are off before the first disposer runs; the fiber ends blank, its effects undone once each, newest first, and last of all the disposer its apply returned; it is gone exactly if its apply, or that disposer, disposes it |
| Kernels.Kernel.Dispose | src/runspool/kernel/fiber.py:236-263 | as Unload, and the fiber is gone from the tree, the list and its parent's effects |
| Kernels.Kernel.Notify | src/runspool/kernel/fiber.py:589-594 | after it nobody who injects the names is left as its services do not demand; going down, no user of them is loaded |
| Kernels.Kernel.Reconcile | src/runspool/kernel/fiber.py:273-297 | the fiber is as its services demand when it returns, and so is everybody the cascade reached |
| Kernels.Kernel.ProvideService | src/runspool/kernel/fiber.py:538-565 | refused for reserved and taken names, changing nothing; else registered and its users reconciled |
| Kernels.Kernel.MountChild | src/runspool/kernel/fiber.py:523-579 | the child is tried at once if and only if every plugin from each injected service's provider up is loaded, or is loading and stands above the child; if not tried nothing else happens; a child that does not load changes nothing but itself, and no load was begun but its own and those below it |
| Kernels.Kernel.AddListener | src/runspool/kernel/events.py:47-69 | the listener is called first or last of its event, as asked; no other event's list changes |
| Kernels.Kernel.Take | src/runspool/kernel/events.py:60-67 | a listener taken back leaves its event's list and no other list |
| KernelEvents.DispatchOrder | src/runspool/kernel/events.py:47-69 | an event calls exactly those who registered for it and have not taken it back: prepended ones first, newest first, then the others, oldest first |
| Kernels.Kernel.Load | src/runspool/kernel/fiber.py:299-329 | a load that fails, or whose plugin disposes itself meanwhile, leaves the services table, fiber list, listeners and every other fiber exactly as they were, and meanwhile no load was begun of any fiber not below it; a successful one leaves whoever can use it loaded |

## Left out

- Kernels.Kernel.Dispose: a fiber that disposed itself keeps its place in the tree and in the list, marked gone, until its parent is unloaded; the source drops it from both at once. A plugin that asks for its disposal does so first thing in its apply or in the disposer its apply returns.
- Kernels.Kernel.Withdraw: of the registrations a plugin may undo early only services are modelled, and only while nothing is in transition; disposers that change other plugins are not among the actions of a plugin.
- Kernels.Kernel.UndoLast: a disposer that raises is logged and skipped by the source; here disposers do not raise.
- Kernels.Kernel: fibers are records in a map keyed by their number rather than linked objects; an epoch is a map from service to serial rather than the text joined from it; the listeners of all events are one list with keys, of which an event's list is the part with its name (`Audience`).
- The kernel's dispose of the root, the change guard, context-bound services, optional lookups by `ctx.get`, and what listeners do when an event is dispatched.
- Worker.GateAnswer: what listeners, guards and contracts answer is chosen by the environment; a guard that raises counts as one that refuses.
- Stores.Store.Transition: `expect` is the one status its callers pass; writing and reading JSON, SQL text, connections and file locking are replaced by atomic methods.
- Stores.PlanChildren: the checks of a child's texts and metadata are one boolean.
- Idle.RunUntilIdle: steps that fail, defer or spawn during the call are outside its conditions (each failure may cost a further claim, a spawned task is not in the cap); recovery, which runs first, is covered by RecoveryIsComplete; a job, once the pool starts it, runs to its end before another does (jobs touch different tasks), during or after the scheduling loop that submitted it.
- FinishSteps.FinishStep: reading the row back after a commit (`TransitionCommitted`) is not modelled.
- The timer and pid file of the daemon, its maintenance hook, and rounds that raise part-way.
- Rows are grouped per task, so an item or run is named by its position there; columns that decide nothing (name, input, priority, metadata, messages and payloads of events, timestamps other than the lock's and next_retry_at) are dropped. Clocks are arbitrary integers.
- What steps compute, notifications, artifacts, and the heartbeat's throttling.
- The `_force` family (`complete_step`, `defer`, `fail`, `apply_*`) and executing without a token: they bypass the protocol.
- Creating tasks from the command line beyond inserting a queued row; listing, searching and `ensure_next_id`.
- Threads: a worker is a program counter, its heartbeat an action of its own; the pool's size and order are arbitrary.
