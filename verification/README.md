# RoboWeaver: the durable action protocol, proved

RoboWeaver drives robot actions through a durable write-ahead protocol. A scheduler keeps serial action
streams of any number of runs in one ledger; an executor, reached over an unreliable link, carries the
actions out; a runtime drives an agent over one run and answers its tool calls. This project models all
three in Dafny and proves what they keep together, for every run, any number of streams, a network that
loses, repeats and reorders events, and crashes between any two durable steps.

## How the model is laid out

- `Contracts` - the records that the components exchange. Identifiers are integer tokens that can only be
  compared, times are natural numbers.
- `Transactions` - every ledger transaction of the scheduler as a function on the tables. `Raised` is an
  exception, which rolls everything back; an early return commits.
- `Executors` - the synthetic executor's store, its events and snapshots, and the link: a call can be lost,
  its reply can be lost, a cancel can stay unconfirmed.
- `Protocol` - the small-step machine. One label is one transaction, one executor call that takes effect or
  one move of the environment; a crash is any stop between two labels. `Enabled` states what the
  environment guarantees (fresh identifiers, a submission is sent only by the process that intended it, only
  what the executor said is ever delivered). `Inv` is the joint invariant of ledger, executor and network.
- `Preservation`, `Histories` - each transaction and each executor step keeps `Inv`; whole runs keep it and
  take nothing back (`Advances`).
- `Safety` - the guarantees over whole runs.
- `Operations`, `Outcomes` - the scheduler's multi-transaction operations, that each is a run of the
  small-step machine, and what they achieve: reconcile mirrors the executor, cancel drains, deliveries
  converge.
- `Effects`, `Progress`, `Results` - when each operation must act and what it then leaves, written out field by field
  and in both directions: `Effects` for the scheduler's transactions, `Progress` for what talks to the executor,
  `Results` for the runtime's calls and the agent's tools. Their statements compare the world before an operation
  with the one after it, by predicates of their own.
- `Ledgers`, `MockExecutors`, `Schedulers` - the source's classes, with its loops and in-place updates. Each
  method's `ensures` gives the whole new world as a step of the machine above. `Scheduler.Now()` is that world.
- `Endings` - when a finished task stays finished, what reopens it, and submissions that were dropped.
- `Steadiness` - cancel precedence, recovery and the accounts of the runtime. `Drivers` - the driver's crash
  machine: the runtime's durable steps with a crash between any two of them, model calls, retries,
  observations, replan charges, tool calls and the outbox. `Overlaps` - a cancel that arrives while another
  call of the runtime is under way.
- `RuntimeSteps` - what each tool and each settled outcome does to the whole world and to the run.
  `DrivenSteps`, `Refinements` - that each of these is a sequence of the driver's moves, as long as the
  environment supplies fresh identifiers, which counting does (`Refinements.CountingProvides`). `Repairs` - what one
  request to the model, one drive, the repair loop and the settling of an ended action amount to. `Runtimes` - the
  runtime class with its retry loop, decision loop, repair loop and feedback recursion. Each method ensures
  `old(Moved(since, ..)) ==> Moved(since, ..)`: it refines the driver's machine.

## What is proved, in short

1. No two executions that may still move share a resource or belong to one run (`Safety.PhysicalExclusion`).
2. The ledger never believes an ending that the executor contradicts, and nothing is submitted twice
   (`Safety.LedgerNeverOutrunsExecutor`, `Safety.AtMostOnceStart`).
3. The lock table is exact at every moment, and only a stopped, finished report frees a lock
   (`Safety.ExactLockTable`, `Safety.OnlyStoppedReportsFree`).
4. Streams are serial: done actions, at most one other, then only queued or, when frozen, only invalidated ones
   (`Safety.SerialFrontier`); success needs evidence no older than all work of all plans
   (`Safety.SuccessPostdatesAllWork`).
5. Reconcile mirrors the executor, a confirmed cancel drains the run, events converge in any order
   (`Outcomes`).
6. The model, retry, observation and replan budgets hold, each call gets at most one result and a bound action
   causes at most one revision, with crashes anywhere (`Drivers.DrivenRunsAreBounded`).
7. Each operation acts exactly when it must. Dispatch submits if and only if the frontier of an unfrozen, unblocked and
   unfinished run is queued, admitted and its resources are free (`Effects.DispatchSubmitsIff`); a verdict is recorded
   if and only if its evidence is current, valid, fresh and later than the work (`Effects.VerifyRecordsIff`);
   terminate and cancel end the run (`Results.TerminateDrains`, `Results.CancelEnds`); an ended action is judged
   before its result is due, and its failure costs one replan and a new plan (`Results.PrepareSettles`).
8. Every loop and recursion of the runtime ends by a budget: attempts by the retries left, decisions by the model
   calls left, drives by the invalid decisions left, the feedback recursion by the model calls left (`Runtimes`).
   An ended action's call gets its result or the run is stopped; an invalid decision is told to the agent as that
   call's result, counted, and repaired until the budget for them is exhausted (`Repairs.Repaired`).
9. The runtime refines the driver's crash machine, and that the small-step machine: on genuine events each call of
   the runtime is a sequence of the driver's moves, so that everything above holds after it
   (`Refinements.FollowedIsBounded`, `DrivenSteps.FollowsReaches`).

## Where a promise has an exact condition

- SUCCEEDED, FAILED and CANCELED do not absorb. A transaction leaves them if and only if it is a revision, a verdict
  other than PASS, or the end of a tick while the stop intent is a replan (`Endings.OverLeavesIff`, and
  `Endings.OverLasts` over whole runs). Concrete runs: a FAIL verdict after SUCCEEDED
  (`Endings.VerdictLeavesSuccess`), a tick that began before the run failed and ends after a replan was requested
  (`Endings.LateTickLeavesFailure`), a revision after CANCELED (`Endings.RevisionOverrulesCancel`). Action
  statuses do absorb (`Safety.LedgerNeverOutrunsExecutor`).
- A cancel that was accepted stands, but not unconditionally. At the scheduler's own interface a revision or a stop
  request with another reason overrules it, and nothing else does (`Steadiness.CancelStandsIff`). A cancel request
  takes hold exactly when no deadline stopped the run before (`Steadiness.CancelTakesHold`). A direct `recover`
  keeps it exactly when no replan is left (`Steadiness.RecoverKeepsCancelIff`). The runtime's entry points never
  recover a run that is being cancelled: each ensures `Accounts`, which keeps a pending cancel, and such contracts
  chain (`Steadiness.CallsKeepCancel`). A cancel does not wait for the driver. One that arrives while another call is
  under way survives if and only if no replan that was paid for before is carried out
  (`Overlaps.CancelSurvivesDriveIff`); `Overlaps.RecoveryOverrulesCancel` is a concrete run in which one is.
- A crash after the intent was committed and before the submission leaves the action in flight for ever: it is never
  sent, and its run is never over nor revised again (`Endings.DroppedForever`).

## Model

| member | source | states |
|---|---|---|
| Safety.PhysicalExclusion | src/roboweaver/scheduler.py:101-145 | In every reachable world two executions not yet terminal and stopped at the executor never share a resource and never belong to the same run |
| Safety.LedgerNeverOutrunsExecutor | src/roboweaver/scheduler.py:191-234 | An action recorded finished is finished with the same status and execution id, and stopped, at the executor then and after any further steps; an invalidated one never has an execution; terminal statuses absorb |
| Safety.AtMostOnceStart | src/roboweaver/scheduler.py:115-145 | Over any run no key reaches the executor twice, executions are exactly the submitted keys, each belongs to exactly one action whose dispatch was recorded, and no two actions record the same execution id |
| Safety.ExactLockTable | src/roboweaver/scheduler.py:130-137 | A row (resource, owner) exists exactly when the owner is an action in flight of some run and the resource is one of its own |
| Safety.OnlyStoppedReportsFree | src/roboweaver/scheduler.py:216-222 | A lock disappears only on delivery of its owner's finished and stopped event, when its execution is no longer live; timeouts, stop requests and unstopped reports free none |
| Safety.AcquireNeedsFree | src/roboweaver/scheduler.py:130-134 | Taking locks succeeds only if every wanted row was free and wanted once, and then adds exactly the wanted rows |
| Safety.OneInFlight | src/roboweaver/scheduler.py:110-119 | At most one action of a run is in flight |
| Safety.SerialFrontier | src/roboweaver/scheduler.py:110-136 | Behind an action of the current plan that is not completed and verified every action is queued, or invalidated once frozen |
| Safety.DispatchOrder | src/roboweaver/scheduler.py:101-137 | What is submitted is the first action not yet done, with everything before it done or of an older plan, nothing of the run in flight, all its resources free, the run unfrozen and the observation valid and fresh |
| Safety.StatusTellsTheTruth | src/roboweaver/scheduler.py:147-153 | SUCCEEDED, FAILED or CANCELED implies every action terminal and no lock held; BLOCKED implies exactly one action in flight |
| Safety.StreamLayout | src/roboweaver/scheduler.py:53-99 | Plan versions are nondecreasing along the list, each plan is numbered 1..n in order, next_sequence is n+1, and the load never exceeds the capacity |
| Safety.SuccessPostdatesAllWork | src/roboweaver/scheduler.py:287-327 | The only step into SUCCEEDED is a PASS verdict on the whole of a closed, unfrozen stream with every current action done, on the current observation by id, time and source, which is valid, fresh and no older than the end of any action ever executed, over all plans |
| Safety.ReceivedIsInert | src/roboweaver/scheduler.py:192-215 | An accepted event, applied again after any further steps, commits and changes nothing at all |
| Safety.LateEventsAreInert | src/roboweaver/scheduler.py:213-228 | An event of an older plan changes neither runs nor locks |
| Safety.FreezeWindow | src/roboweaver/scheduler.py:236-248 | Until the plan is revised a frozen run stays frozen with an intent and gains no submit intent and no action; a closed plan stays closed with the same actions |
| Safety.OnlyPassVerifies | src/roboweaver/scheduler.py:287-327 | Any step that makes an action verified is a PASS verdict on that very action, completed in the current plan, on valid fresh evidence of the current observation, which is not the one it was submitted on and not older than its end |
| Safety.StopsShow | src/roboweaver/scheduler.py:236-248 | An action in flight belongs to the current plan and carries a stop request and the run's stop reason exactly when the run is frozen; frozen it never reads RUNNING, unfrozen never STOPPING |
| Safety.LaterSightingsAreAccepted | src/roboweaver/adapters/mock.py:129-139 | After any further steps, with a clock that does not run backwards, the executor's next observation never counts as moving backwards from its last |
| Effects.DispatchSubmits | src/roboweaver/scheduler.py:101-137 | When the first unfinished action of an unfrozen run that is READY, EXECUTING, VERIFYING or RECOVERING is queued, admitted on a valid fresh observation and its distinct resources are free, the intent commits exactly it as SUBMITTING at that time on the current observation, takes all its locks and makes the task EXECUTING |
| Effects.DispatchSubmitsIff | src/roboweaver/scheduler.py:101-137 | An intent is recorded if and only if some action is in that position; a commit without an intent changes nothing |
| Effects.DispatchDeclines | src/roboweaver/scheduler.py:101-114 | Dispatch does nothing, without an error, if and only if the run takes no work or its frontier is not queued |
| Effects.DispatchStarts | src/roboweaver/scheduler.py:101-145 | On a link that works such a dispatch ends with the executor running the action and the ledger reading RUNNING with its execution id |
| Effects.DispatchUnanswered | src/roboweaver/scheduler.py:138-153 | If the submission or its reply is lost the action is unknown and the run BLOCKED; the execution exists exactly if the request arrived |
| Effects.VerifyRecordsIff | src/roboweaver/scheduler.py:287-324 | A verdict is recorded if and only if it is about the current observation by id, time and source, that is valid and fresh and later than all unjudged work, and a PASS on an action names one that awaits it |
| Effects.ActionsAreDistinct | src/roboweaver/scheduler.py:65-89 | In every good world the actions of a run have distinct ids, which the theorems on verdicts ask for |
| Effects.VerdictDecides | src/roboweaver/scheduler.py:287-330 | A recorded PASS verifies exactly the action it names; PASS on the whole of a closed, unfrozen stream whose plan is done succeeds; any other verdict gives RECOVERING from every status; nothing else changes |
| Effects.ReviseDecides | src/roboweaver/scheduler.py:267-285 | A revision happens if and only if the run is frozen, all is terminal and the observation is valid and not older than any end; the new plan is open, unfrozen and READY from number 1 |
| Effects.CreateStarts | src/roboweaver/scheduler.py:30-46 | A new run is READY, open and unfrozen, at plan 1 and number 1, with one observation spent and nothing else |
| Effects.AppendQueuesIff | src/roboweaver/scheduler.py:53-91 | An append commits if and only if the stream is open, unfrozen, unfinished, in that plan, has the capacity and every proposal is admitted on the current valid fresh observation |
| Effects.AppendQueues | src/roboweaver/scheduler.py:53-91 | It queues exactly these proposals in order behind the stream, numbered on, each with the resources of its capability, and binds the call to the last |
| Effects.AcceptDecides | src/roboweaver/scheduler.py:155-173 | Which snapshots are refused, and what any other one makes of the action and of the run |
| Effects.EventAppliesIff | src/roboweaver/scheduler.py:191-208 | An event applies if and only if action, plan and execution match and no different event of its id was received |
| Effects.EventDecides | src/roboweaver/scheduler.py:209-234 | What an applied event does: nothing if received before, a note if stale, an ending with its time that frees the locks if stopped, unknown and BLOCKED if terminal but not stopped, RUNNING or STOPPING otherwise |
| Effects.FreezeDecides | src/roboweaver/scheduler.py:236-248 | A stop request invalidates what is queued, marks what is in flight with the reason and its first request time, leaves what is terminal and frees no lock |
| Effects.SettleDecides | src/roboweaver/scheduler.py:357-373 | Exactly the stop requests past the limit become unknown and block; a stopping run with all terminal is CANCELED, RECOVERING or FAILED by its reason |
| Progress.ReconcileUnanswered | src/roboweaver/scheduler.py:177-189 | A lookup that brings no answer leaves the action in flight unknown and the run BLOCKED, and nothing else |
| Progress.ReconcileMirrors | src/roboweaver/scheduler.py:177-189 | Whatever the link does, reconcile brings the action in flight in line with the executor: a stopped ending adopted and unlocked, a running one RUNNING or STOPPING, an absent or silent one unknown and BLOCKED |
| Progress.StopUnanswered | src/roboweaver/scheduler.py:236-265 | A stop that is unsupported, unanswered or refused leaves the action unknown with its first request time and the run frozen and BLOCKED |
| Progress.StopMirrors | src/roboweaver/scheduler.py:236-265 | A cancel that is answered but not confirmed, or comes after the end, freezes the run and brings the action in line: the ending is adopted, what still runs reads STOPPING |
| Progress.StopThenTickEnds | src/roboweaver/scheduler.py:236-374 | A stop for any reason that can be confirmed, and the next tick, leave everything terminal and unlocked and the run CANCELED, RECOVERING or FAILED as the reason says |
| Progress.StoppedTickEnds | src/roboweaver/scheduler.py:342-374 | A tick of a stopped run with all terminal changes nothing but the status, to what its reason says |
| Progress.TickTimesOut | src/roboweaver/scheduler.py:342-374 | A tick that finds the run or an action out of time, on a run that is not stopping, drains it and fails it for the timeout, if the executor can confirm that |
| Progress.TickMirrors | src/roboweaver/scheduler.py:342-374 | Any other tick of an unfinished run brings the action in flight in line with the executor, and makes it unknown if its stop request is past the limit |
| Progress.TickIdles | src/roboweaver/scheduler.py:342-374 | A tick of a run that is over, or that is not stopping, has time left and has nothing in flight, changes nothing |
| Endings.OverLeavesIff | src/roboweaver/scheduler.py:267-374 | A committed transaction takes a run out of SUCCEEDED, FAILED or CANCELED if and only if it is a revision, a verdict other than PASS, or the end of a tick while the stop intent is a replan |
| Endings.OverLasts | src/roboweaver/scheduler.py:267-374 | Over any run of the system without such a transaction a finished task stays finished |
| Endings.VerdictLeavesSuccess | src/roboweaver/scheduler.py:328-329 | A concrete run in which a FAIL verdict takes the task from SUCCEEDED to RECOVERING |
| Endings.LateTickLeavesFailure | src/roboweaver/scheduler.py:342-373 | A concrete run in which the last transaction of a tick that began earlier takes the task from FAILED to RECOVERING |
| Endings.RevisionOverrulesCancel | src/roboweaver/scheduler.py:267-285 | A concrete run in which the scheduler's own revision brings a cancelled run back to READY |
| Endings.DroppedForever | src/roboweaver/scheduler.py:138-145 | An action whose intent was recorded but whose submission was dropped stays in flight for ever, unsent, as the only one of a run that is never over nor revised again |
| Histories.EveryRunIsSafe | src/roboweaver/scheduler.py:26-374 | The joint invariant of ledger, executor and network holds at every point of every run |
| Histories.StepKeeps | src/roboweaver/scheduler.py:53-374 | Every transaction, executor call and environment move keeps the joint invariant |
| Histories.StepAdvances | src/roboweaver/ledger.py:54-63 | No step takes anything back: identities, execution ids, finish times and terminal statuses are write-once, event marks and plan versions never decrease, received rows, journal and executor history only grow |
| Histories.PlayKeeps | src/roboweaver/ledger.py:54-63 | Both hold along any legal continuation of a good world |
| Histories.TransactNames | src/roboweaver/ledger.py:54-63 | A transaction writes the run it names and no other |
| Preservation.IntentKeeps | src/roboweaver/scheduler.py:101-137 | Locking the frontier and recording its intent keeps the joint invariant |
| Preservation.MarkUnknownKeeps | src/roboweaver/scheduler.py:147-153 | Marking a dispatched action unknown keeps the joint invariant |
| Preservation.AcceptKeeps | src/roboweaver/scheduler.py:155-173 | Adopting any past snapshot of the executor keeps the joint invariant, however stale |
| Preservation.DeliverKeeps | src/roboweaver/scheduler.py:191-234 | Applying any event the executor ever emitted, at any time, keeps the joint invariant |
| Preservation.AppendKeeps | src/roboweaver/scheduler.py:53-91 | Appending proposals with fresh ids keeps the joint invariant, numbering and capacity included |
| Preservation.FreezeKeeps | src/roboweaver/scheduler.py:236-248 | Freezing a stream keeps the joint invariant: what was queued is invalidated and will never start |
| Preservation.ReviseKeeps | src/roboweaver/scheduler.py:267-284 | A revision keeps the joint invariant: all old actions are terminal and no finish time is after its observation |
| Preservation.VerifyKeeps | src/roboweaver/scheduler.py:287-330 | Recording a verdict keeps the joint invariant: what is marked verified completed before the current observation |
| Preservation.SettleKeeps | src/roboweaver/scheduler.py:357-373 | The end of a tick keeps the joint invariant: no run is declared over with an action in flight |
| Preservation.SubmitKeeps | src/roboweaver/adapters/mock.py:51-76 | A pending submission starts exactly one execution, consistent with the ledger |
| Preservation.InjectKeeps | src/roboweaver/adapters/mock.py:95-127 | A report of the executor keeps the joint invariant: terminal snapshots absorb and event sequences increase |
| Operations.GenuineEventsApply | src/roboweaver/scheduler.py:192-208 | A genuine event of an action whose execution id is recorded never meets an association mismatch or a conflicting duplicate |
| Operations.AcceptSnapshotLeads | src/roboweaver/scheduler.py:155-175 | Adopting a genuine snapshot and its event never raises and is a run of the small-step machine |
| Operations.DispatchLeads | src/roboweaver/scheduler.py:101-145 | Dispatch is a run of the machine, and when it raises it has changed nothing |
| Operations.ReconcileLeads | src/roboweaver/scheduler.py:177-189 | Reconcile never raises on genuine replies, whatever the link does, leaves the executor alone and is a run of the machine |
| Operations.RequestStopLeads | src/roboweaver/scheduler.py:236-265 | A stop request never raises on genuine replies and is a run of the machine |
| Operations.TickLeads | src/roboweaver/scheduler.py:342-374 | A tick never raises on genuine replies and is a run of the machine |
| Outcomes.ReconcileMirrorsExecutor | src/roboweaver/scheduler.py:155-189 | With an online executor and a prompt link the action in flight takes over the executor's id; a stopped ending is adopted exactly with its time, frees the locks and sets the run to VERIFYING or RECOVERING, a running one reads RUNNING or STOPPING and unblocks the run, an unstopped ending stays in flight with locks, and a missing one is unknown and blocks the run |
| Outcomes.AdoptCurrent | src/roboweaver/scheduler.py:155-175 | Adopting the current snapshot of an action in flight rewrites that run as the snapshot says and nothing else |
| Outcomes.StopOneFinishes | src/roboweaver/scheduler.py:249-265 | A confirmed cancel of the action in flight leaves it finished and the others untouched |
| Outcomes.CancelDrains | src/roboweaver/scheduler.py:236-265 | With an online confirming executor and stoppable actions, a cancel of an unfinished run makes every action terminal and frees all its locks, and the next tick, whatever its link and clock, only sets CANCELED |
| Outcomes.TickSettlesCancel | src/roboweaver/scheduler.py:342-374 | Once all is terminal under a cancel, a tick changes nothing but the status, to CANCELED |
| Outcomes.DeliveryConverges | src/roboweaver/scheduler.py:191-234 | Any finite sequence of one execution's events, in any order and with repeats, that includes its conclusive one leaves runs and locks exactly as that event alone does |
| Outcomes.EventBeforeLast | src/roboweaver/adapters/mock.py:95-127 | Every event of a concluded execution is its last one or a non-terminal one with a smaller sequence |
| Ledgers.Ledger.Create | src/roboweaver/ledger.py:40-45 | A new run is inserted and journalled exactly when its id is free; otherwise nothing changes |
| Ledgers.Ledger.Commit | src/roboweaver/ledger.py:54-63 | All of a transaction becomes visible at once: one run, the lock rows, the received rows and the journal |
| MockExecutors.MockExecutor.Submit | src/roboweaver/adapters/mock.py:51-76 | Starts one execution per key, returns the existing one on a repeat, refuses a reused key; the reply can be lost after acceptance |
| MockExecutors.MockExecutor.Lookup | src/roboweaver/adapters/mock.py:78-84 | The stored snapshot, that there is none, or no reply |
| MockExecutors.MockExecutor.Cancel | src/roboweaver/adapters/mock.py:86-93 | Ends a running execution as CANCELED and stopped if cancels are confirmed, and answers with the snapshot |
| MockExecutors.MockExecutor.Inject | src/roboweaver/adapters/mock.py:95-127 | Emits the next event of a live execution and stores it as its snapshot; a terminal one refuses |
| Schedulers.CountOpen | src/roboweaver/scheduler.py:64 | The loop counts exactly the actions that are not terminal |
| Schedulers.AcquireAll | src/roboweaver/scheduler.py:130-134 | The insert loop takes all rows or none |
| Schedulers.StopEach | src/roboweaver/scheduler.py:240-247 | The in-place loop invalidates exactly the queued actions and marks exactly those in flight as stopping, keeping an earlier request time |
| Schedulers.ExpireEach | src/roboweaver/scheduler.py:358-365 | The in-place loop makes exactly the overdue stop requests unknown, and tells whether there was one |
| Schedulers.AbsorbEvent | src/roboweaver/scheduler.py:215-234 | What a new event makes of its action and of the run, on every branch |
| Schedulers.TakeOver | src/roboweaver/scheduler.py:162-173 | What a snapshot makes of its action and of the run, on every branch |
| Schedulers.Scheduler.Create | src/roboweaver/scheduler.py:30-46 | A run is created exactly when the registry admits its task and its id is free; the world is then that step of the machine |
| Schedulers.Scheduler.Append | src/roboweaver/scheduler.py:53-91 | All proposals are queued or, on any failure, the world is unchanged; the result is the last sequence number or the first error in the source's order |
| Schedulers.Scheduler.Close | src/roboweaver/scheduler.py:93-99 | Closes exactly at the last sequence number of an unfrozen current plan |
| Schedulers.Scheduler.RecordIntent | src/roboweaver/scheduler.py:101-137 | First transaction of dispatch: exactly the step of which Effects.DispatchSubmitsIff says when it submits and Effects.DispatchSubmits what it writes |
| Schedulers.Scheduler.Dispatch | src/roboweaver/scheduler.py:101-145 | The whole new world, over submit, lost replies and adoption of the snapshot; Effects.DispatchStarts and Effects.DispatchUnanswered say what it comes to |
| Schedulers.Scheduler.MarkUnknown | src/roboweaver/scheduler.py:147-153 | Unknown and blocked, unless already terminal |
| Schedulers.Scheduler.AcceptSnapshot | src/roboweaver/scheduler.py:155-175 | Two transactions: the snapshot, then its event |
| Schedulers.Scheduler.Apply | src/roboweaver/scheduler.py:191-234 | One event, accepted at most once; a mismatch or conflicting duplicate changes nothing |
| Schedulers.Scheduler.Reconcile | src/roboweaver/scheduler.py:177-189 | The loop over the actions read at the start, as far as it gets |
| Schedulers.Scheduler.StopOne | src/roboweaver/scheduler.py:249-265 | One turn of the stop loop: unsupported, unanswered or refused cancels end as unknown |
| Schedulers.Scheduler.RequestStop | src/roboweaver/scheduler.py:236-265 | Freeze in one transaction, then the stop loop |
| Schedulers.Scheduler.Revise | src/roboweaver/scheduler.py:267-285 | A new plan exactly when frozen, all terminal and freshly observed; otherwise the world is unchanged |
| Schedulers.Scheduler.Verify | src/roboweaver/scheduler.py:287-330 | Exactly the step of which Effects.VerifyRecordsIff says when it records and Effects.VerdictDecides what it writes; otherwise the world is unchanged and the error is the first that applies in the source's order |
| Schedulers.Scheduler.Observe | src/roboweaver/scheduler.py:332-340 | The observation advances and never moves backwards |
| Schedulers.Scheduler.Settle | src/roboweaver/scheduler.py:357-373 | Last transaction of tick |
| Schedulers.Scheduler.Tick | src/roboweaver/scheduler.py:342-374 | Deadlines, reconcile and settlement, as far as they get, with the clock read anew for each action |
| Steadiness.CancelStandsIff | src/roboweaver/scheduler.py:236-285 | A committed transaction leaves a canceling run canceling if and only if it is not a revision of the run and not a stop request with another reason |
| Steadiness.CancelSticks | src/roboweaver/runtime.py:248-262 | Over any run of the system without a revision of the run or a stop request with another reason, a cancel stands: no new action, no new submit intent, neither success nor failure, whatever else happens |
| Steadiness.CallsKeepCancel | src/roboweaver/runtime.py:248-429 | The contracts of the runtime's calls chain: each keeps the accounts and a pending cancel, so any sequence of them does |
| Steadiness.TerminateStops | src/roboweaver/runtime.py:248-257 | Terminating freezes the run for the effective reason, whatever the replies, and never overrules a cancel or a timeout |
| Steadiness.CancelTakesHold | src/roboweaver/runtime.py:259-262 | Cancelling an unfinished run takes hold if and only if no deadline stopped it before |
| Steadiness.TickEnforcesDeadlines | src/roboweaver/scheduler.py:342-373 | A tick requests a stop if and only if none was pending and time had run out; an unconfirmed stop past its limit is unknown and blocks; a stopped run with nothing in flight ends as its intent says |
| Steadiness.RecoverAccounts | src/roboweaver/runtime.py:264-278 | Recovery pays for a replan first, revises at most once and only on a paid replan with everything stopped; without one left it stops the run |
| Steadiness.RecoverKeepsCancelIff | src/roboweaver/runtime.py:264-278 | Recovering a canceling run keeps the cancel if and only if no replan is left |
| Results.TerminateDrains | src/roboweaver/runtime.py:248-257 | With an executor that can confirm the stop, terminating an unfinished run leaves everything terminal and unlocked and the run CANCELED for a pending cancel, FAILED for a pending timeout, and otherwise as the given reason says |
| Results.TerminateSettles | src/roboweaver/runtime.py:248-257 | Whatever the executor does, a terminated run with nothing left in flight has ended as its effective reason says |
| Results.CancelEnds | src/roboweaver/runtime.py:259-262 | Cancelling a run that is over does nothing; an unfinished one that no timeout stopped is CANCELED with every action terminal and no lock held, if the executor can confirm the stop |
| Results.RefreshDecides | src/roboweaver/runtime.py:100-108 | A refresh succeeds if and only if an observation is left in the budget, the executor answers and the observation does not move backwards; it is paid for even if that fails |
| Results.RefreshAndReviseDecides | src/roboweaver/runtime.py:276-278 | On a frozen run with all terminal, the revision happens when the refresh does and its observation is valid and not outdated |
| Results.RecoverRevises | src/roboweaver/runtime.py:264-278 | With a replan left, an executor that confirms the stop and a fresh valid observation, recovering ends with the next plan, READY on that observation, one replan spent |
| Results.PrepareSettles | src/roboweaver/runtime.py:388-425 | Whenever the result of an ended action becomes due: a completed, unverified action has the verifier's verdict as the last verification, on a new observation, and a PASS on it verifies it; one replan and one plan version were spent if and only if the action of the current plan did not complete or its last verdict is not PASS |
| Results.PrepareReadyIff | src/roboweaver/runtime.py:388-425 | When no replan is due, the result becomes due if and only if the observation can be made and the verdict can be recorded on it |
| Results.ToolDecides | src/roboweaver/agent/bridge.py:17-54 | A repeated call changes nothing; a proposal that the stream does not take is remembered as rejected; any other one is the last of the stream with the call bound to it |
| Results.ToolStarts | src/roboweaver/agent/bridge.py:17-54 | With nothing before it unfinished, free resources and a working link, the executor runs the proposed action and the ledger says so, on the observation it was proposed on |
| Results.FinishDeclines | src/roboweaver/agent/bridge.py:56-69 | Short of a plan that is completed and verified, finishing does nothing |
| Results.FinishPassesIff | src/roboweaver/agent/bridge.py:56-75 | Finishing passes if and only if the plan is done, the run unfrozen, the observation can be made and a PASS on it can be recorded; the task has then SUCCEEDED |
| Results.FinishRecovers | src/roboweaver/agent/bridge.py:70-73 | Any other recorded verdict on the whole costs a replan, if one is left, and leads to the next plan or leaves the run stopped |
| Results.CarriedEnds | src/roboweaver/agent/bridge.py:17-82 | Which decisions end the drive and how, when a decision lets the agent go on, and which decisions change nothing |
| Drivers.DrivenRunsAreBounded | src/roboweaver/runtime.py:73-426 | With model calls, retries, observations, foreign steps and crashes anywhere: plan_version - 1 <= replans <= max_replans, model calls, retries and observations are within their budgets, no bound action causes two revisions, and no call gets two user-authored results |
| Drivers.MoveKeeps | src/roboweaver/runtime.py:73-426 | Every durable step of the driver, paying for model calls, retries and observations included, every foreign step and every crash keeps the budgets, the accounts and the outbox |
| Drivers.ToolKeeps | src/roboweaver/agent/bridge.py:17-54 | A tool call that binds, is refused or repeats keeps the accounts and the outbox |
| Drivers.CarryOutKeeps | src/roboweaver/runtime.py:264-278 | A paid revision spends its charge, and its bound action belongs to an older plan from then on |
| Drivers.ResultSettles | src/roboweaver/runtime.py:350-363 | Sending the result that is due, once, leaves nothing due and no call with two results |
| DrivenSteps.TerminatePasses | src/roboweaver/runtime.py:248-257 | Terminating never raises on genuine replies, is a sequence of the driver's moves and uses only its own event ids |
| DrivenSteps.CancelPasses | src/roboweaver/runtime.py:259-262 | Cancelling likewise, at any stage of the driver |
| DrivenSteps.RefreshPasses | src/roboweaver/runtime.py:100-108 | Refreshing pays for a sighting and records it, and leaves the executor alone |
| DrivenSteps.RecoverPasses | src/roboweaver/runtime.py:264-278 | Recovering charges a replan, for the bound action or for none, and carries it out or gives it up; nothing stays outstanding |
| DrivenSteps.FinishPasses | src/roboweaver/agent/bridge.py:56-75 | Finishing is a sequence of the driver's moves, with or without a recovery |
| RuntimeSteps.FinishSucceeds | src/roboweaver/agent/bridge.py:56-75 | Finishing passes only with SUCCEEDED: with the plan done no action is left that a PASS could be for |
| DrivenSteps.PreparePasses | src/roboweaver/runtime.py:388-425 | Settling the bound action charges a replan for that very action, if any, and then prepares its result |
| DrivenSteps.ToolFollows | src/roboweaver/agent/bridge.py:17-54 | Using the tool that submits an action, with fresh ids, is a tool call of the driver and a dispatch, and uses up only those ids |
| RuntimeSteps.ToolAccounts | src/roboweaver/agent/bridge.py:17-54 | The tool keeps the accounts whatever becomes of the submission, and the binding changes only to its own call |
| DrivenSteps.CarriedFollows | src/roboweaver/agent/bridge.py:17-82 | Carrying out any decision is a sequence of the driver's moves that leaves the agent's turns in the session |
| DrivenSteps.FollowsReaches | src/roboweaver/runtime.py:173-429 | Whatever sequence of moves the driver's machine makes, the small-step machine makes too; the joint invariant, the budgets and the outbox hold after it and nothing recorded is taken back |
| Refinements.FollowedIsBounded | src/roboweaver/runtime.py:173-429 | After any calls of the runtime on a run that was just created: plan_version - 1 <= replans <= max_replans, the other budgets hold and no call has two results |
| Refinements.OpenTracks | src/roboweaver/runtime.py:350-363 | A drive may start with the result that is due or the refusal about to be sent, and with nothing else |
| Repairs.RequestStaysWithin | src/roboweaver/agent/model.py:29-51 | A request makes at most one attempt more than the retries left; each costs a model call and each retry a retry |
| Repairs.RoundRepairs | src/roboweaver/runtime.py:173-246 | A round of the repair loop leaves it going, with the refusal as the next message, or ended: with a sound drive and no rejected call, with an unforeseen error, or with the run stopped for good |
| Repairs.DriveResettles | src/roboweaver/runtime.py:173-246 | When the loop ends the last drive was rightly judged sound, or the run is stopped for good, or an unforeseen error escaped |
| Repairs.SettlingLasts | src/roboweaver/runtime.py:388-429 | The verdict on a settled action and the replan that it cost stay, whatever the agent does afterwards |
| Overlaps.CancelSurvivesIff | src/roboweaver/runtime.py:259-278 | A pending cancel survives a move of the driver or of others if and only if that neither carries out a revision nor requests a stop for another reason |
| Overlaps.CancelSurvivesDriveIff | src/roboweaver/runtime.py:259-278 | Over any driven run in which nobody else requests a stop for another reason, a pending cancel survives if and only if no replan that was paid for is carried out |
| Overlaps.UnchargedCancelSurvives | src/roboweaver/runtime.py:259-278 | It survives when no replan is outstanding and none is taken |
| Overlaps.RecoveryOverrulesCancel | src/roboweaver/runtime.py:264-278 | A concrete run in which a recovery overrules a cancel that arrives during its own refresh |
| Runtimes.Runtime.TakeModelCall | src/roboweaver/runtime.py:73-87 | A model call is granted and counted if and only if the run is not frozen, canceled or failed and is within its call and time budgets |
| Runtimes.Runtime.TryOnce | src/roboweaver/agent/model.py:29-51 | An attempt is paid for if and only if the run takes decisions within its budgets by the clock, and is made again if and only if it was paid for, failed before anything was received and a retry is left |
| Runtimes.Runtime.GenerateContent | src/roboweaver/agent/model.py:29-51 | Exactly which attempts one request makes: all are paid for, all but the last are to be made again, and it ends with the outcome of the first that is not, or for want of a budget for the next one |
| Runtimes.Runtime.TerminateRun | src/roboweaver/runtime.py:248-257 | The whole new world, of which Results.TerminateDrains says how the run ends; it is frozen for the effective reason, a pending cancel or timeout stands, and with nothing left in flight it has ended |
| Runtimes.Runtime.Cancel | src/roboweaver/runtime.py:259-262 | The whole new world; an unfinished run is canceling if and only if no deadline stopped it before, and CANCELED with everything terminal and unlocked if the executor can confirm that |
| Runtimes.Runtime.RefreshObservation | src/roboweaver/runtime.py:100-108 | Pays for an observation first; writes only the observation and its count |
| Runtimes.Runtime.RecoverRun | src/roboweaver/runtime.py:264-278 | The whole new world, within the accounts of a recovery |
| Runtimes.Runtime.ExecuteAction | src/roboweaver/agent/bridge.py:17-54 | The whole new world: a repeated call changes nothing, a refused proposal is remembered, an accepted one is bound and dispatched; a pending cancel stands |
| Runtimes.Runtime.RecordVerdict | src/roboweaver/runtime.py:110-116 | The whole new world: the verdict is recorded with its effect on the action or the run, or nothing changes |
| Runtimes.Runtime.FinishTask | src/roboweaver/agent/bridge.py:56-75 | The whole new world, of which Results.FinishPassesIff and Results.FinishRecovers say when it passes; nothing happens to a frozen run, and a pass is SUCCEEDED |
| Runtimes.Runtime.CarryOut | src/roboweaver/agent/bridge.py:17-82 | The whole new world, session and outcome of whatever the agent asks for; cancels stick, budgets hold and the outbox promises at most one result per call |
| Runtimes.Runtime.Ask | src/roboweaver/agent/model.py:29-51 | The next decision of the agent, after one request as above; only the counts of model calls and retries change |
| Runtimes.Runtime.Decide | src/roboweaver/runtime.py:141-171 | One decision: the agent goes on, at the cost of a model call, exactly after what lets it go on, and otherwise the drive ends as the decision says or with the error of its request |
| Runtimes.Runtime.Drive | src/roboweaver/runtime.py:141-171 | The message is sent; all decisions but the last let the agent go on and the last one ends the drive as its move says; at most one decision more than the model calls it spent; nothing due is left |
| Runtimes.Runtime.DriveAndJudge | src/roboweaver/runtime.py:173-207 | A drive is broken exactly for an error; invalid with a call to refuse exactly if nothing was raised and a rejected call is left; invalid without one exactly for too many calls or an idle end, which is written out; and sound otherwise |
| Runtimes.Runtime.Conclude | src/roboweaver/runtime.py:208-246 | An invalid decision is counted and refused while the budget for them lasts and stops the run when it does not; an expected error stops the run for good; an unforeseen one escapes; a sound drive changes nothing |
| Runtimes.Runtime.CountInvalid | src/roboweaver/runtime.py:215-224 | Counts one invalid decision and tells whether the budget is exceeded |
| Runtimes.Runtime.Repair | src/roboweaver/runtime.py:173-246 | All drives but the last were invalid, each counted and, unless the run is stopped, refused as its call's result; the loop ends with a sound drive and no rejected call, with an unforeseen error, or with the run stopped for good; at most max_invalid_proposals - i0 + 1 drives; the message is delivered unless the run is stopped before the first drive |
| Runtimes.Runtime.SendPrepared | src/roboweaver/runtime.py:350-370 | The prepared result is in the session at most once; it stays unsent only if the run was stopped; the outbox is empty afterwards, unless an error escaped, which leaves it as it was |
| Runtimes.Runtime.DeliverFeedback | src/roboweaver/runtime.py:350-372 | The recursion with continue_execution ends by the model calls that remain; the due result is delivered, or the run is stopped, an error escaped or the session is lost; afterwards no bound action that ended is left unanswered on a run that is not stopped |
| Runtimes.Runtime.RepairPlan | src/roboweaver/runtime.py:399-404 | A failed or unverified action of the current plan is recovered within the accounts; one of an older plan, as after a crash, costs nothing |
| Runtimes.Runtime.PrepareAnswer | src/roboweaver/runtime.py:388-425 | The whole new world; when the result becomes due the action was settled as Results.PrepareSettles says -- judged, verified by a PASS, replanned for if it failed -- and otherwise something raised or the run is frozen |
| Runtimes.Runtime.AnswerEnded | src/roboweaver/runtime.py:388-429 | The call of a bound action that ended gets its result, or the run is stopped, or an unexpected error escaped; on a run that is not stopped its verdict is recorded and its failure has cost a replan and a plan version |
| Runtimes.Runtime.ContinueExecution | src/roboweaver/runtime.py:374-429 | All cases: a run that is over, cancelled, timed out or failed, or in which nothing bound ended, is left exactly as it is; otherwise the ended action was judged, its failure paid for with a replan, and the owed call has its result afterwards, or the run is stopped, unless an unexpected error escaped or the session is lost; no other ended action is left unanswered, and the recursion ends |
| Runtimes.Runtime.Feedback | src/roboweaver/runtime.py:280-283 | An event that does not apply raises and changes nothing; one that does is applied first, and going on from the state it leaves is left alone, answered or stopped as above; genuine events make it a sequence of the driver's moves |
| Runtimes.Runtime.Begin | src/roboweaver/runtime.py:129-139 | A session that exists is left as it is, with an error; otherwise it begins, and the agent is driven until a drive is sound, the run is stopped for good or an unforeseen error escapes |
| Runtimes.Runtime.Resume | src/roboweaver/runtime.py:290-348 | First the tick: if that raises or finds the run over, its world is the whole result; otherwise the run is picked up from the state that the tick left, as below; no call gets a second result |
| Runtimes.Runtime.PickUp | src/roboweaver/runtime.py:295-348 | A session that is lost while the stream has actions is an error that changes nothing; on the agent's turn -- nothing prepared, nothing bound -- the agent is driven as in Begin; a prepared result is delivered; what was owed is answered or the run is stopped, unless something raised |
| Runtimes.Runtime.PickUpBound | src/roboweaver/runtime.py:304-344 | A bound call has its receipt in the session again and, if its action ended, was settled and answered on a run that is not stopped; a call that the session never had is an error that changes nothing |
| Runtimes.Runtime.RestoreReceipt | src/roboweaver/runtime.py:304-344 | The lost receipt of the bound call is appended, and no result is |

## Left out

- SQLite, file and flock mechanics: the tables are maps, a transaction is an atomic commit or nothing, and the per-run claim is the single driver of `Drivers`; a second driver that is refused has no steps.
- The agent framework, prompts, images and message contents: the session is an append-only list of calls, receipts and user-authored results; the agent is any sequence of decisions.
- The agent framework is taken not to execute a tool call again once its result is in the session; a call without a result may be executed any number of times.
- JSON-schema validation, preconditions and task constraints in `src/roboweaver/registry.py`: one arbitrary verdict per proposal and dispatch. The observation's validity, identity and age are modelled.
- User verifiers: any verdict, on any checkpoint, or any error.
- Exceptions are one error each; `Caught` tells those that the runtime answers by stopping the run from those that escape. How the agent framework wraps an exception of a tool is not part of this model.
- asyncio timeouts: every call on the link is prompt, lost before it takes effect, or lost after; a model request fails or not. Cancellation of a drive by the run's remaining time is the agent ending with an error.
- The check for a freeze after a model answer (`src/roboweaver/runtime.py:89-98`) cannot fire when the runtime's methods are taken one at a time; only its limit of one tool call is modelled.
- Stop reasons are the four that the source uses; any other string would behave as failure does.
- Observed state, images, reason texts, event payloads and schema versions are not recorded; journal rows of the runtime's own transactions are not told apart, and those of its silent ones are counted too.
- Interleavings of two calls inside `Runtimes`: each method of the class is one step. `Protocol`, `Drivers` and `Overlaps` interleave single transactions.
- A session that is lost in the middle is answered as the source answers it, but it is no move of `Drivers`, so the refinement is not claimed across it.
- Serialisation, the command line, the offline driver, the scripted model and the capability catalogue: they only call what is modelled.
- Times are natural numbers.
- Liveness beyond drain, reconcile, the termination of the runtime's loops and the answer or stop that an ended action leads to.
- Runtimes.Runtime.Feedback: the joint invariant is claimed after genuine events only; other events are covered up to what they do to the run's accounts and the outbox.
- Steadiness.CancelSticks: holds while nobody overrules the cancel through the scheduler itself, because there it is false; Steadiness.CancelStandsIff is the exact condition.
- Endings.OverLasts: holds while nothing reopens the task, because otherwise it is false; Endings.OverLeavesIff is the exact condition.
