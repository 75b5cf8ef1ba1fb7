# El Capitan remediation lifecycle: a verified model

El Capitan moves a remediation case through a gated lifecycle with deterministic code. This project models that code in
Dafny and proves what it keeps. `dafny verify dfyconfig.toml` checks the whole project.

The parts, from the case outwards:

- **The case and its log** (`Cases`, `CaseTable`, `CaseShape`, `CaseLog`): the 17 states, the 23 transitions with the
  exact condition of each, and the records that backward moves invalidate. The projection is a fold of the log, the attachments are exact, and execution starts at
  most once and only behind the human gate.
- **The stores under concurrency** (`Workflow`, `Interleaving`, `CaseStore`): reads and appends of any number of workers
  interleave freely; no update is lost, and the index of active assets of the SQLite store agrees with the scan.
- **Scheduling and execution** (`Scheduler`, `Scheduling`, `Dispatch`, `Execution`, `Worker`, `Filesystem`,
  `Timestamps`): the leased queue, the execution service with its driver, monitor, probes and auditor as arbitrary
  answers, and the system of both with many threads that lose leases and crash.
- **Agents** (`AgentRuns`, `Preapproval`): budgets, replay and circuit breaking decided from a record log, and the bounded
  loop to human review.
- **Intake** (`Intake`): findings into cases, with crashes between any two writes.
- **Exact-scope algorithms** (`PlanScope`, `Templates`, `BraceScan`, `SourcePatch`, `Windows`, `Portfolio`, with `Json`,
  `Ranking` and `TextOrder` beneath).

Objects that the program updates in place are classes; values and pure transitions are datatypes and functions. The
effective state of a case is the state it was blocked from when it is blocked, and its state otherwise. Times are
instants where the program parses them and texts where it only stores them. A digest stands for what it is taken of.

Where the code does less than its names or comments say, the model follows the code:

- A scheduled case that a new finding reopens keeps its job row, jobs are unique per case, and the schedule is dropped.
  Approved again it can be scheduled only if it had no job (`Scheduling.ReapprovedScheduledIff`,
  `Scheduling.ReapprovedIsRefused`), and a case with a job and no schedule stays without one for good
  (`Scheduling.StrandedForGood`). An attempt that stops between the job row and the case leaves such a case too
  (`Scheduling.AttemptStrandsIff`).
- The filesystem driver reads in text mode. A replacement with a carriage return is never accepted, and an original with
  one is never restored: an execution that is not accepted then ends blocked instead of rolled back, and with carriage
  returns in both texts every started execution does (`Filesystem.ExecuteOnFilesystem`).
- The rollback mode named `exact` is exact only when the status is the only key of the deployed versioning
  configuration (`Templates.ExactModeIff`).
- The CDK patch copies a blank line in front of the encryption property along with its indent, and is one line only
  without such a line and when the property's line ends in the construct (`SourcePatch.CdkPatchOneLineIff`,
  `SourcePatch.BlankLineIsCopied`).
- The scan for the end of a construct starts at the first brace of the header. Without a brace in the construct id that
  is the brace of the properties (`BraceScan.SpanOfProperties`); with one the span can end inside the id
  (`BraceScan.BracedIdIsMissed`, and `BraceScan.SpanMissesIff` says when).
- The number of parallel changes above one is not a bound (`Portfolio.MoreThanTheNumber`).
- The asset id of a case joins provider, account and resource by colons, so it tells resources apart only when providers
  and accounts hold none (`Intake.AssetIdsDiffer`, `Intake.ColonAccountsCollide`).
- A priority can fall if a case is blocked while it is still open; no service does that
  (`Intake.BlockedOpenCaseFalls`).

## Model

| member | source | states |
|---|---|---|
| `Cases.NewFindings` | src/elcapitan/cases.py:288-290 | The ids added are exactly the supplied ids the case does not hold |
| `Cases.TransitionFrame` | src/elcapitan/cases.py:416-455 | No transition changes the case id, tenant, assets, services or creation time; findings only grow; the version and the event sequence go up by one; the event records the state before and after |
| `CaseTable.ForwardTaken` | src/elcapitan/cases.py:208-244 | Each of the fourteen forward edges is taken exactly with its record, its attachment and no other, and leads to its end |
| `CaseTable.ForwardOnly` | src/elcapitan/cases.py:363-369 | A transition of the forward table is accepted only along one of the fourteen edges |
| `CaseTable.CloseNoActionIff` | src/elcapitan/cases.py:346-352 | Accepted exactly from PRIORITIZED and VALIDATED with a reason and no attachment; ends in CLOSED_NO_ACTION |
| `CaseTable.RejectIff` | src/elcapitan/cases.py:353-362 | Accepted exactly from PLAN_READY to AWAITING_APPROVAL with a reason and no attachment; ends in REJECTED |
| `CaseTable.BlockIff` | src/elcapitan/cases.py:334-340 | Accepted exactly for an unfinished case that is not blocked, with a reason and no attachment; remembers the state |
| `CaseTable.ResumeIff` | src/elcapitan/cases.py:341-345 | Accepted exactly for a blocked case with a place to go back to, and goes there |
| `CaseTable.ResumeUndoesBlock` | src/elcapitan/cases.py:334-345 | Resuming right after a block is accepted and gives back state, plan, window, priority and findings; only records were added |
| `CaseTable.RetrySreIff` | src/elcapitan/cases.py:310-317 | Accepted exactly from SRE_APPROVED and WINDOW_SELECTED with a reason and feedback; leads to PLAN_READY without window and without the two records |
| `CaseTable.RequestReworkIff` | src/elcapitan/cases.py:318-325 | Accepted exactly from WINDOW_SELECTED with a reason and feedback; leads to VALIDATED without plan and window and without the seven records |
| `CaseTable.ReselectWindowIff` | src/elcapitan/cases.py:326-333 | Accepted exactly from ROLLBACK_READY with a reason; leads to SRE_APPROVED without window and without the four records |
| `CaseTable.ReprioritizeIff` | src/elcapitan/cases.py:300-304 | Accepted exactly in an unfinished case, blocked ones included, with an assessment and its record; moves nothing |
| `CaseTable.ScheduleExecutionIff` | src/elcapitan/cases.py:305-309 | Accepted exactly from APPROVED with a schedule record and no attachment; the case stays approved with its window |
| `CaseTable.AddFindingIff` | src/elcapitan/cases.py:286-299 | Accepted exactly with a record and at least one new id; from VALIDATED to APPROVED it leads to PRIORITIZED without plan, window and the eleven records, elsewhere the case stays where it is |
| `CaseTable.EventCarries` | src/elcapitan/cases.py:422-434 | The event has the id, time, actor, records, evidence and detail of the request, the next number and the states before and after |
| `CaseTable.AttachmentsStored` | src/elcapitan/cases.py:421-455 | What is attached replaces what was there; every record of the request is on the case, and every other was there before |
| `CaseShape.TransitionBlocking` | src/elcapitan/cases.py:329-339 | A case is blocked exactly when it has a place to resume to, and that place is neither blocked nor terminal; every transition keeps this |
| `CaseShape.TransitionAttachment` | src/elcapitan/cases.py:432-453 | A plan is attached exactly from PLAN_READY on and a window exactly from WINDOW_SELECTED on, counted at the effective state; every transition that does not end the case keeps this |
| `CaseShape.TransitionRank` | src/elcapitan/cases.py:208-223 | Every accepted transition is one stage forward, a move back to one of four landings strictly below, neutral, or an ending from before execution; which state each one reaches is stated by the rows of CaseTable |
| `CaseShape.BackwardDropsUndone` | src/elcapitan/cases.py:396-422 | A backward move removes the record of every stage it undoes, so none is left behind stale |
| `CaseShape.DroppedAboveLanding` | src/elcapitan/cases.py:396-422 | A backward move removes no record of a stage before its landing |
| `CaseShape.StageSuppliesRecord` | src/elcapitan/cases.py:225-244 | A forward stage brings its own non-empty record |
| `CaseShape.TransitionRecords` | src/elcapitan/cases.py:396-423 | Each passed stage has its record in the case, and the execution states have theirs; every transition that does not end the case keeps this |
| `CaseShape.TransitionShape` | src/elcapitan/cases.py:263-455 | The whole attachment invariant is kept by every transition |
| `CaseLog.RunShape` | src/elcapitan/cases.py:263-455 | After any run of accepted transitions the invariant holds, the log is numbered 1..n and chained state to state, and the projection ends where the log ends |
| `CaseLog.ReplayIsProjection` | src/elcapitan/cases.py:396-455 | State, version, update time, record ids (with the pops of backward moves) and the place to resume to are a fold of the event log alone |
| `CaseLog.AbsorbIsTransition` | src/elcapitan/cases.py:396-455 | Reading one event changes the folded view exactly as the transition changed the projection |
| `CaseLog.HumanGate` | src/elcapitan/cases.py:208-223 | In every log that starts execution the eight stages up to the human approval stand before it, in order, each with its record and none undone; only neutral events lie between the approval and the start; the plan and the window used are those of the standing planning and window stages |
| `CaseLog.RemainingStagesRepeated` | src/elcapitan/cases.py:263-455 | After a backward move every stage from its landing on was passed again |
| `CaseLog.StartIsFinal` | src/elcapitan/cases.py:208-223 | Execution starts at most once in a log, and after it comes no stage and no backward move |
| `CaseLog.StartsFromRank` | src/elcapitan/cases.py:208-223 | Whether execution has started can be read off the stored case: never before its rank, exactly once from it on |
| `Workflow.InMemoryCaseStore.constructor` | src/elcapitan/workflow.py:35-38 | A new store is empty |
| `Workflow.InMemoryCaseStore.Create` | src/elcapitan/workflow.py:40-54 | Refuses a known id or an asset that an active case of the tenant owns, and then changes nothing; otherwise adds the case with an empty log |
| `Workflow.InMemoryCaseStore.Append` | src/elcapitan/workflow.py:62-73 | Projection and event are stored together or not at all; refusals are a missing case, a version that moved, or a gap in the sequence |
| `Workflow.InMemoryCaseStore.Get` | src/elcapitan/workflow.py:56-60 | The stored case, or that there is none |
| `Workflow.InMemoryCaseStore.FindActiveByAsset` | src/elcapitan/workflow.py:79-88 | The active owner of the asset with the latest update time, then the greatest id; none exactly when no active case owns it |
| `Workflow.ScanIs` | src/elcapitan/workflow.py:79-88 | Written out: only unfinished cases of the tenant that hold the asset count, and the one updated last is taken, the greatest id among equals |
| `Workflow.BeforeTotal` | src/elcapitan/workflow.py:88 | The order of the scan ranks any two cases |
| `Workflow.Advance` | src/elcapitan/workflow.py:107-111 | Undisturbed, an advance stores exactly the transition of the case it read, or changes nothing |
| `Interleaving.AppendedIsCurrent` | src/elcapitan/workflow.py:62-73 | An append that is accepted applied its transition to the projection stored at that moment, however old the read was |
| `Interleaving.SoundAlways` | src/elcapitan/workflow.py:32-111 | In every interleaving of opens, reads and appends by any number of workers each stored case is produced by transitions one after another, and no read is newer than the store |
| `Interleaving.Linearised` | src/elcapitan/workflow.py:62-73 | In every interleaving the log of a stored case is numbered and chained, the projection is its fold, the attachment invariant holds, and execution has started at most once |
| `Interleaving.NoUpdateLost` | src/elcapitan/workflow.py:62-73 | In every interleaving the log of a case is exactly the accepted events of that case, in the order of acceptance |
| `CaseStore.InsertAssetRows` | src/elcapitan/case_store.py:86-91 | The asset rows go in exactly when no asset repeats and no row exists |
| `CaseStore.InsertIndexRows` | src/elcapitan/case_store.py:92-98 | The index rows go in exactly when no active case of the tenant owns an asset |
| `CaseStore.SqliteCaseStore.Create` | src/elcapitan/case_store.py:75-109 | All rows of a case are inserted, or none |
| `CaseStore.SqliteCaseStore.Append` | src/elcapitan/case_store.py:121-160 | Projection, event and index change together; a failing statement leaves every table as it was |
| `CaseStore.SqliteCaseStore.FindActiveByAsset` | src/elcapitan/case_store.py:172-181 | The case the index names for the tenant and asset |
| `CaseStore.AtMostOneActive` | src/elcapitan/case_store.py:92-98 | No asset of a tenant has two active cases |
| `CaseStore.FindRefinesScan` | src/elcapitan/case_store.py:172-181 | The indexed lookup returns what the scan of every projection returns |
| `CaseStore.CreateRefines` | src/elcapitan/case_store.py:75-109 | The unique keys accept a new case exactly when the scanning store does, and both stores agree afterwards |
| `CaseStore.AppendRefines` | src/elcapitan/case_store.py:121-160 | An append of a transition under an unused event id is accepted by both stores or by neither, and both agree afterwards |
| `CaseStore.IndexRefinesScan` | src/elcapitan/case_store.py:75-181 | In every interleaving of steps (distinct assets per case, unused event ids) the tables hold the same cases and logs as the scanning store, and the index holds an asset exactly when an active case owns it |
| `TextOrder.LessTotal` | src/elcapitan/scheduler.py:121-125 | The order of ids and timestamps as texts ranks any two of them |
| `Timestamps.TextOrderIsTimeOrder` | src/elcapitan/observability.py:34-35 | For the UTC texts the program writes, text order is time order and equal texts are equal instants (section 5.1 of RFC 3339) |
| `Scheduler.SqliteExecutionJobStore.Put` | src/elcapitan/scheduler.py:84-94 | One job per case and per id; otherwise nothing changes |
| `Scheduler.SqliteExecutionJobStore.ClaimDue` | src/elcapitan/scheduler.py:104-138 | Writes off missed jobs, then leases the least due job by time and id; refuses an empty worker or a lease that is not positive |
| `Scheduler.SqliteExecutionJobStore.Complete` | src/elcapitan/scheduler.py:140-154 | Only the worker that holds the lease completes a job, and only with one of the four final states; the lease is given up and the attempts stay |
| `Scheduler.LeastOf` | src/elcapitan/scheduler.py:121-125 | Among due jobs there is one that precedes all others |
| `Scheduler.DueIsClaimed` | src/elcapitan/scheduler.py:104-138 | A claim never comes back empty while a job is due |
| `Scheduler.ClaimTakes` | src/elcapitan/scheduler.py:117-125 | A claim takes a job inside its window that is waiting or whose lease has run out, the earliest and then the least id; it takes none exactly when there is none, and never one under a live lease |
| `Scheduler.ClaimLeaves` | src/elcapitan/scheduler.py:111-134 | After a claim the taken row is leased for that worker with one attempt more, waiting rows past their deadline are missed, and every other row is as before |
| `Scheduler.LeaseProtocol` | src/elcapitan/scheduler.py:84-154 | For every sequence of puts, claims and completions: claims fall inside the execution interval; successive leases of a job do not overlap; only the last claimer completes, once; attempts equals the number of claims; a missed job was never claimed |
| `Scheduler.FinalAbsorbs` | src/elcapitan/scheduler.py:140-154 | A completed or missed job never changes again |
| `Scheduling.ExecutionScheduler.Schedule` | src/elcapitan/scheduler.py:172-197 | Writes the job first, then the schedule record, then the case: the three stores and the answer of one attempt, also when a later write is refused or the attempt crashes in between; after success the row runs from the start to the end of the approved window and the case names it |
| `Scheduling.ScheduledMatchesJob` | src/elcapitan/scheduler.py:172-197 | A successful attempt leaves a waiting job row for the case with the start and end of the window and no attempts, a schedule record with the same case, job, bounds, window id and evidence, and a case still approved that names both; nothing else is written |
| `Scheduling.EligibleWhenBound` | src/elcapitan/scheduler.py:172-197 | At every instant the new job can be claimed if and only if the scheduled case passes the schedule and window checks of an execution of that job; from the end of the window on it is missed |
| `Scheduling.ScheduledIff` | src/elcapitan/scheduler.py:172-197 | With new ids and no crash an attempt succeeds if and only if the case is approved with its window ahead and has no job |
| `Scheduling.JobsSince` | src/elcapitan/scheduler.py:55-67 | Over all moves of services, queue and attempts, a case has a job exactly if it had one at the start or an attempt since got as far as the job row |
| `Scheduling.ReapprovedScheduledIff` | src/elcapitan/scheduler.py:172-197 | A case reopened by a finding and approved again, its window ahead, can be scheduled if and only if it had no job when it was reopened and no attempt since has left one |
| `Scheduling.ReapprovedIsRefused` | src/elcapitan/scheduler.py:172-197 | The failing run, stage by stage: approved, scheduled, reopened by a finding, approved again with its window ahead, refused |
| `Scheduling.ReopeningStrandsIff` | src/elcapitan/cases.py:398-404 | A finding that reopens a case leaves it with a job and no schedule if and only if it has a job |
| `Scheduling.AttemptStrandsIff` | src/elcapitan/scheduler.py:180-196 | An attempt on a case without job and schedule leaves a job and no schedule if and only if it stops after the job row, by a crash or by a refusal of the record or the case |
| `Scheduling.StrandedForGood` | src/elcapitan/scheduler.py:172-197 | A case with a job and no schedule can never be scheduled again and no execution of it is ever released, whatever other services, the queue and further attempts do |
| `Dispatch.ActSafe` | src/elcapitan/action_plane.py:648-850 | Every step of any thread (claim, lose a lease, reclaim, advance, deploy, complete, crash) and of any other service keeps the safety invariant of queue, store and threads |
| `Dispatch.DeployAtMostOnce` | src/elcapitan/action_plane.py:648-706 | In every interleaving a case is deployed at most once, only after its single start of execution is stored, and never when its job was missed |
| `Dispatch.RecordedOutcomeHolds` | src/elcapitan/scheduler.py:215-233 | In every interleaving a job recorded as succeeded belongs to a remediated case, as rolled back to a rolled back case, and as contained to a case still in recovery or rolled back, then and ever after |
| `Execution.ExecutionService.RunProbes` | src/elcapitan/action_plane.py:738-756 | Whether at least one probe ran and every one passed; a probe that raises fails |
| `Execution.ExecutionService.Rollback` | src/elcapitan/action_plane.py:573-646 | Calls the driver rollback exactly once, records it, and closes the case as rolled back, or blocks it when the checkpoint or the service was not restored or the change was only contained |
| `Execution.ExecutionService.Judge` | src/elcapitan/action_plane.py:738-805 | No objection exactly when all probes passed and a valid auditor accepted, named outcomes and cited all the evidence and nothing else |
| `Execution.ExecutionService.Complete` | src/elcapitan/action_plane.py:807-850 | Writes verification, certificate and handoff, in that order, and completes the case |
| `Execution.ExecutionService.DeployAndJudge` | src/elcapitan/action_plane.py:703-850 | From a stored start: the exact transitions, records, driver calls and final state, for every answer of driver, monitor, probes and auditor |
| `Execution.ExecutionService.Execute` | src/elcapitan/action_plane.py:648-850 | A run that is refused changes nothing, and it is refused exactly by the release checks (schedule, job, window, owners of the four records, finding scope, approval) or the preparation; a run that starts ends remediated, rolled back, or blocked while rolling back; remediated exactly when deploy, health, probes and audit all passed; certificate and handoff exactly then, the certificate for the approved findings; in every other case the driver rolled back exactly once |
| `Execution.ApprovedFindingIds` | src/elcapitan/action_plane.py:214-230 | The findings of an accepted scope are findings of the case, and without repetition when the plan names them |
| `Execution.ApprovedExactly` | src/elcapitan/action_plane.py:214-230 | A plan without a scope covers all findings of the case; a scope is accepted exactly if it lists findings of the case, at least one, each once and none empty, and then covers that list in its order |
| `Execution.ReleasedIff` | src/elcapitan/action_plane.py:552-571 | Written out, what an execution needs before anything is touched: state, schedule and job, owners of the four records, window, approval and scope |
| `Execution.AskAccepted` | src/elcapitan/action_plane.py:697-701 | On the forward edges and for blocking, the requests the service makes are accepted |
| `Worker.ScheduledExecutionWorker.RunOnce` | src/elcapitan/scheduler.py:215-233 | The recorded job state names the state the case ended in: failed exactly when the execution raised, contained and rolled back exactly as its outcome says, and the lease is given up |
| `Worker.RecordedTells` | src/elcapitan/scheduler.py:219-233 | Failed exactly for an execution that raised; contained before rolled back before succeeded |
| `Filesystem.TranslatedIff` | src/elcapitan/action_plane.py:340-347 | Reading as text changes a content exactly when it holds a carriage return |
| `Filesystem.TempNameIs` | src/elcapitan/action_plane.py:349-355 | The temporary file lies beside the target under a name derived from it |
| `Filesystem.DeployWritesTarget` | src/elcapitan/action_plane.py:357-366 | Deploying writes the target at most, and passes only with the approved digest in place |
| `Filesystem.RollbackRestores` | src/elcapitan/action_plane.py:368-378 | A rollback that passes leaves the whole tree as it was at the checkpoint |
| `Filesystem.RollbackPassesIff` | src/elcapitan/action_plane.py:349-378 | After a deployment the rollback passes if and only if the original target has no carriage return |
| `Filesystem.DeployPassesIff` | src/elcapitan/action_plane.py:357-366 | The deployment of the approved replacement passes if and only if it has no carriage return |
| `Filesystem.PreflightIff` | src/elcapitan/action_plane.py:319-336 | Preflight passes exactly when target and replacement exist with the approved digests before and after |
| `Filesystem.PreparedIff` | src/elcapitan/action_plane.py:319-347 | An execution can start exactly on a tree whose target has the approved digest, with the approved replacement, while the service is well |
| `Filesystem.AcceptedIff` | src/elcapitan/action_plane.py:302-378 | A started execution is kept exactly when the replacement can be written as it is and health, probes and auditor accept the tree with it, which is then the tree |
| `Filesystem.RollbackAfterDeploy` | src/elcapitan/action_plane.py:357-378 | After any deployment the rollback passes if and only if the sibling was free and the original has no carriage return, and then the tree is the original |
| `Filesystem.ExecuteOnFilesystem` | src/elcapitan/action_plane.py:302-378 | Over a whole execution, on the tree and the change alone: a target that is missing or has drifted, another replacement or an unwell service means refused with store, records and tree unchanged; a started one ends remediated iff the replacement could be written and the tree with it was kept, rolled back iff not and the temporary sibling is free, the original has no carriage return and the service is well on it, and blocked otherwise; remediated means exactly the target replaced, rolled back the original tree, and no other path changes on any outcome |
| `AgentRuns.AgentRunRuntime.Run` | src/elcapitan/agent_runs.py:243-429 | One run over the record store, step by step, is the run function on the log: replay, stops, budgets, call, outcome, circuit |
| `AgentRuns.SharedKeys` | src/elcapitan/agent_runs.py:106-130 | Two tasks share a replay key exactly if they are the same task, and a package exactly if role, output contract, inputs and evidence are equal |
| `AgentRuns.RestoredIff` | src/elcapitan/agent_runs.py:248-266 | Over every sequence of runs, a run answers without a call exactly when an earlier run of the same task had its answer accepted and that result is intact, and the answer is that result |
| `AgentRuns.CallIff` | src/elcapitan/agent_runs.py:248-331 | The provider is called exactly when no success of the task is recorded, no stop is on the case or the package, nothing is pending and calls, attempts and time are left |
| `AgentRuns.Counts` | src/elcapitan/agent_runs.py:290-365 | The budgets count the invocations of the case and of the package, the circuit the outcomes of the package with the signature |
| `AgentRuns.SignatureTells` | src/elcapitan/agent_runs.py:351-394 | An accepted answer has no failure signature; two failures share one exactly when they failed in the same way |
| `AgentRuns.AgentRunRuntime.Restorable` | src/elcapitan/agent_runs.py:248-261 | The first recorded success of the replay key |
| `AgentRuns.AgentRunRuntime.ActiveTerminal` | src/elcapitan/agent_runs.py:219-230 | The latest stop that applies to the case or the package |
| `AgentRuns.AgentRunRuntime.PutTerminal` | src/elcapitan/agent_runs.py:187-217 | A stop is written once per scope, reason and cause |
| `AgentRuns.AgentRunRuntime.Invoke` | src/elcapitan/agent_runs.py:311-429 | Invocation record, provider call, outcome record and circuit, in that order, cut off at any crash point |
| `AgentRuns.BudgetsHold` | src/elcapitan/agent_runs.py:267-331 | Over every sequence of runs with crashes anywhere: calls never exceed invocations, invocations never exceed the case and package budgets, attempts of a package are exactly 1..n, every outcome names an earlier invocation and no other outcome does, at most one success per replay key |
| `AgentRuns.FreshInvocation` | src/elcapitan/agent_runs.py:311-331 | A new invocation id was never used before, so its record is never a duplicate |
| `AgentRuns.CallNeedsBudget` | src/elcapitan/agent_runs.py:248-309 | A call is made only with nothing pending, nothing stopped, calls and attempts left, every invocation younger than the limit and no recorded success |
| `AgentRuns.StopIsRecorded` | src/elcapitan/agent_runs.py:187-230 | A caller told to stop finds that reason in the log as a stop of its package |
| `AgentRuns.HaltedForGood` | src/elcapitan/agent_runs.py:219-230 | A stop ends the calls of its package for good |
| `AgentRuns.CrashStopsCalls` | src/elcapitan/agent_runs.py:272-289 | A crash between an invocation and its outcome ends all calls of the case, whatever runs follow |
| `AgentRuns.AcceptedIsRecorded` | src/elcapitan/agent_runs.py:382-414 | An accepted answer is in the log as a success of its replay key |
| `AgentRuns.ReplayForever` | src/elcapitan/agent_runs.py:248-261 | A recorded success with its result intact is returned without a call and without a record in every later state, even after exhaustion |
| `AgentRuns.CircuitOpens` | src/elcapitan/agent_runs.py:366-428 | Unless a crash falls before the terminal write, a package that reached the threshold of equal failures is stopped |
| `PlanScope.UnchangedIffSame` | src/elcapitan/remediation_planning.py:265-287 | No path is reported exactly when the two trees are equal |
| `PlanScope.SingleKey` | src/elcapitan/remediation_planning.py:265-287 | The paths of one key are the whole difference exactly if all other keys hold equal values |
| `PlanScope.AllowedIffOnlyLeaf` | src/elcapitan/remediation_planning.py:289-318 | A change is accepted exactly when the one admitted leaf goes from an admitted old to the admitted new value and everything else is equal, even when keys spell a path |
| `PlanScope.ResourceTypeIs` | src/elcapitan/remediation_planning.py:293 | The resource type of an address is what stands before its first dot |
| `PlanScope.PlanScope` | src/elcapitan/remediation_planning.py:359-386 | A plan passes exactly when one entry updates the target in place at the admitted leaf alone and every other entry is a no-op |
| `Templates.ScopeHolds` | src/elcapitan/aws_cdk.py:325-380 | When the proof succeeds, forward and rollback equal the deployed template at every path but the versioning configuration, which they enable and suspend, and the proposed template equals the baseline there |
| `Templates.AcceptedIff` | src/elcapitan/aws_cdk.py:325-372 | The proof succeeds exactly when all three templates have the bucket, versioning was absent or suspended, the proposal sets it to exactly an enabled status, the baseline did not change it, and the proposal with the baseline's versioning is the baseline |
| `Templates.ShapeIff` | src/elcapitan/aws_cdk.py:338-348 | A template has the bucket exactly when type and properties are there under its id |
| `Templates.WriteElsewhere` | src/elcapitan/aws_cdk.py:373-379 | Writing one path leaves every path apart from it as it was |
| `Templates.WriteBack` | src/elcapitan/aws_cdk.py:373-379 | Writing a value changes nothing exactly when the value was there |
| `Templates.RollbackIsDeployedIff` | src/elcapitan/aws_cdk.py:377-380 | The rollback template is the deployed one exactly when the prior value is a suspended status and nothing more |
| `Templates.ExactModeIff` | src/elcapitan/aws_cdk.py:295 | The mode named exact restores exactly if and only if the status is the only key |
| `Templates.ExactModeCounterexample` | src/elcapitan/aws_cdk.py:295 | A deployed configuration with one more key has the mode exact and a rollback that differs |
| `BraceScan.LineEndsAtFirstFeed` | src/elcapitan/aws_cdk.py:185-187 | A line comment of the reference lexer ends at the first line feed, or at the end |
| `BraceScan.CommentEndsAtFirstClose` | src/elcapitan/aws_cdk.py:188-191 | A block comment of the reference lexer ends at the first closing pair after its opening, or at the end |
| `BraceScan.StringEndsAtFirstQuote` | src/elcapitan/aws_cdk.py:192-198 | A string of the reference lexer ends at the first quote with an even number of backslashes before it, or at the end |
| `BraceScan.DepthAfterToken` | src/elcapitan/aws_cdk.py:182-216 | Nothing inside a string or comment counts for the structural depth |
| `BraceScan.FindClose` | src/elcapitan/aws_cdk.py:176-218 | The flag-driven scan returns the first position where the structural depth outside strings and comments is back to zero, or reports that it never is |
| `BraceScan.ConstructEnd` | src/elcapitan/aws_cdk.py:212-215 | The end includes the closing parenthesis and semicolon when they follow |
| `BraceScan.SpanOfProperties` | src/elcapitan/aws_cdk.py:174-218 | When the construct id holds no brace the span ends where the structural depth of the properties brace returns to zero |
| `BraceScan.SpanMissesIff` | src/elcapitan/aws_cdk.py:174-218 | The span leaves the properties out if and only if the first brace of the header is closed within the header |
| `BraceScan.BracedIdIsMissed` | src/elcapitan/aws_cdk.py:174-218 | For the id a{} the span ends inside the id |
| `BraceScan.EarlierBraceMayAgree` | src/elcapitan/aws_cdk.py:174-218 | An earlier brace alone does not make the span wrong: the two scans can end at one place |
| `BraceScan.MatchingConstruct` | src/elcapitan/aws_cdk.py:155-218 | Several headers are refused, none is no construct, one gives its start and structural end or is reported unterminated; the double-quoted spelling counts only without the other |
| `BraceScan.BraceDelta` | src/elcapitan/terraform_linker.py:136-159 | The delta of a line is its structural depth outside strings and line comments |
| `BraceScan.Blocks` | src/elcapitan/terraform_linker.py:162-192 | Blocks are in order and disjoint, have zero net depth with every proper prefix non-zero, and every header outside earlier blocks starts one; an unterminated one is reported where it starts |
| `BraceScan.BlocksUnique` | src/elcapitan/terraform_linker.py:162-192 | Two lists that meet this contract are the same list |
| `SourcePatch.CdkPatchOneLineIff` | src/elcapitan/aws_cdk.py:299-322 | A patch that is made adds exactly one line if and only if no blank line stands before the encryption property and the line of the property ends with a line feed inside the construct |
| `SourcePatch.InsertedText` | src/elcapitan/aws_cdk.py:317-323 | The patched file is the original with the indent and the versioned property line put in at one place |
| `SourcePatch.CdkPatchSets` | src/elcapitan/aws_cdk.py:311-323 | When the encryption line ends in the construct the patched construct has the property: patching again is refused |
| `SourcePatch.MatchIsLeftmost` | src/elcapitan/aws_cdk.py:315 | The captured indent starts at the leftmost line start from which only white space leads to the name |
| `SourcePatch.BlankLineIsCopied` | src/elcapitan/aws_cdk.py:315-322 | Every construct with a blank line before its only property is patched, and not by one line |
| `SourcePatch.TerraformPatchChangesOneLine` | src/elcapitan/remediation_planning.py:660-682 | A patch that is made replaces the one status literal of the linked block, disabled or suspended by enabled; that line lies in the block and changes in nothing else, and no other line of the file changes |
| `SourcePatch.LiteralTexts` | src/elcapitan/remediation_planning.py:660-682 | The literals and property names as they are spelt |
| `Windows.EarliestStart` | src/elcapitan/observability.py:191-197 | A candidate starts at the least time, not before now plus notice, with its weekday and hour and nothing past the hour |
| `Windows.FixedStartIsAfterNow` | src/elcapitan/observability.py:153-156 | The fixed-delay branch starts on a whole minute strictly after now and no later than the delay |
| `Windows.FixedCandidate` | src/elcapitan/observability.py:153-168 | The one fixed candidate: start, end, rank 1 and the averages of all samples |
| `Windows.Profiles` | src/elcapitan/observability.py:169-174 | Each allowed weekday and hour holds its own samples in their order, and no other key exists |
| `Windows.Candidates` | src/elcapitan/observability.py:192-211 | One candidate for each ranked profile, as many as the policy asks for |
| `Windows.CandidateWindows` | src/elcapitan/observability.py:148-211 | The candidates are the best eligible profiles in the lexicographic order of their averages and key, each at its earliest legal start; every profile left out ranks behind all of them; the error and fixed-delay branches |
| `Windows.StartsDiffer` | src/elcapitan/observability.py:193-197 | Different candidates start at different instants |
| `Windows.CandidateIsLegal` | src/elcapitan/observability.py:169-211 | In local time each candidate starts on the hour, on an allowed weekday and in an allowed hour, after the notice; it lasts as the policy says and rests on enough samples |
| `Windows.CandidatesInOrder` | src/elcapitan/observability.py:182-190 | Candidates come by fewer requests, fewer errors, less latency, then weekday and hour |
| `Windows.SamplesOfCandidate` | src/elcapitan/observability.py:169-211 | The samples behind a candidate are exactly those taken within its starting hour some number of weeks away, whatever the offset of the zone |
| `Ranking.SortSorts` | src/elcapitan/observability.py:182-190 | A sorted list is an arrangement of the input in the order |
| `Portfolio.Queue` | src/elcapitan/portfolio.py:64-129 | The nested loops build one item per eligible case with its conflicts and status |
| `Portfolio.QueueIsRanking` | src/elcapitan/portfolio.py:67-83 | The queue is an arrangement of the scored cases by effective priority, score, age and id |
| `Portfolio.QueueHolds` | src/elcapitan/portfolio.py:67-83 | Every item of the queue is an eligible case |
| `Portfolio.QueueMissesNone` | src/elcapitan/portfolio.py:67-83 | Every eligible case is in the queue |
| `Portfolio.ItemScore` | src/elcapitan/portfolio.py:70-79 | An item is ranked by the score of its case, raised when a factor is exposed and lowered by the largest criticality among its services |
| `Portfolio.ItemsInOrder` | src/elcapitan/portfolio.py:80-83 | Of any two items the first has the higher effective score, then the higher score, then the older case, then the smaller id |
| `Portfolio.StatusTells` | src/elcapitan/portfolio.py:97-124 | Without conflicts each status names one state of the case, and the last one also an approved case without a window |
| `Portfolio.ScheduledIff` | src/elcapitan/portfolio.py:86-106 | A case is scheduled exactly when it is approved, has a window and collides with no higher case |
| `Portfolio.ConflictIff` | src/elcapitan/portfolio.py:86-103 | The conflicts of a case are exactly the higher cases it collides with, and which conflict status it gets |
| `Portfolio.NoDoubleBooking` | src/elcapitan/portfolio.py:86-106 | No instant of a scheduled case lies in the window of a higher case: of any with one change at a time, of those sharing a service otherwise |
| `Portfolio.OverlapIsCommonInstant` | src/elcapitan/portfolio.py:50-56 | For windows that are not empty the overlap test holds exactly when some instant lies in both |
| `Portfolio.ParallelNumberIsNoBound` | src/elcapitan/portfolio.py:86-106 | With a number above one an approved case with a window that shares no service with a higher case is scheduled |
| `Portfolio.MoreThanTheNumber` | src/elcapitan/portfolio.py:86-106 | For every number above one there are more scheduled cases than that number at one instant |
| `Portfolio.InputOrderIgnored` | src/elcapitan/portfolio.py:80-83 | With unique case ids the queue does not depend on the order in which cases are listed |
| `Preapproval.RunAgent` | src/elcapitan/preapproval.py:144-189 | At most three calls; the last reply is used exactly if it is usable; every earlier one was asked to be corrected, for its citations only once and last; no due correction is left out |
| `Preapproval.RuleMeansOnePerCycle` | src/elcapitan/preapproval.py:532-549 | The rule the review applies is exactly that a new cycle starts between any two reworks |
| `Preapproval.RuleExtend` | src/elcapitan/preapproval.py:532-549 | Every event written under the rule keeps it |
| `Preapproval.PreapprovalOrchestrator.Reworked` | src/elcapitan/preapproval.py:533-541 | Whether a rework lies after the last finding that started a cycle |
| `Preapproval.PreapprovalOrchestrator.ReviewSre` | src/elcapitan/preapproval.py:210-301 | The first usable answer decides: approved exactly on approve, rejected exactly on reject, blocked exactly on any other decision; the stored review holds its fields, and an approval has real texts in all three arrays |
| `Preapproval.PreapprovalOrchestrator.RetryInvalidApproval` | src/elcapitan/preapproval.py:303-323 | Reopens exactly a stored review that fails the checks, names it, and leaves the case at plan_ready |
| `Preapproval.PreapprovalOrchestrator.SelectWindow` | src/elcapitan/preapproval.py:371-456 | The window of the case has the times of the supplied candidate that was chosen, its rationale and confidence, and lies in the future |
| `Preapproval.PreapprovalOrchestrator.ReselectStarted` | src/elcapitan/preapproval.py:334-369 | A window is given up exactly when it has started |
| `Preapproval.PreapprovalOrchestrator.ReviewRollback` | src/elcapitan/preapproval.py:467-557 | The first usable answer decides: rollback ready exactly on approve, back to validated exactly on reject with required changes and no earlier rework in the cycle, rejected exactly on any other reject, blocked exactly on any other decision |
| `Preapproval.PreapprovalOrchestrator.PassGate` | src/elcapitan/preapproval.py:578-715 | The case reaches the human only with a sound SRE review and a window ahead |
| `Preapproval.PreapprovalOrchestrator.AskSre` | src/elcapitan/preapproval.py:256-285 | What remains of the SRE agent is the output of its first usable answer, meets the decision checks and holds only texts |
| `Preapproval.PreapprovalOrchestrator.AskRollback` | src/elcapitan/preapproval.py:496-517 | What remains of the rollback verifier is the output of its first usable answer; an approval names steps and triggers and leaves no change required, a rejection names the changes |
| `Preapproval.ReworkedIff` | src/elcapitan/preapproval.py:533-541 | A rework lies in the present cycle exactly when some rework has no cycle-starting finding after it |
| `Preapproval.SoundIff` | src/elcapitan/preapproval.py:78-82 | A stored review meets the current checks exactly if it is no approval or its three arrays are there, have items, and hold no placeholder and nothing but texts |
| `Preapproval.PreapprovalOrchestrator.Iterate` | src/elcapitan/orchestration.py:99-133 | One iteration ends the run or moves the case by one event and uses up one unit of the remaining iterations, a new selection giving three back |
| `Preapproval.MoveCost` | src/elcapitan/orchestration.py:96-99 | The remaining iterations fall with every move of the loop other than a new window selection |
| `Preapproval.PreapprovalOrchestrator.AdvanceToHumanReview` | src/elcapitan/orchestration.py:88-135 | The number of iterations is at most nine and three more for each new window selection: twelve with one, so running out of the fourteen needs at least two; only reviews older than the run are reopened, at most one; the rework rule holds throughout |
| `Intake.MergePriority` | src/elcapitan/intake.py:89-99 | The merged assessment has the higher score, and keeps the current one on a tie |
| `Intake.MoveLowersIff` | src/elcapitan/intake.py:199-217 | The priority move of an ingest lowers a score exactly when the case is open and already has a higher one |
| `Intake.PriorityMoveIs` | src/elcapitan/intake.py:199-217 | An open case is prioritised by the finding, any other is raised exactly by a strictly higher score or when it has no assessment |
| `Intake.MoveKeepsCase` | src/elcapitan/intake.py:190-217 | A case keeps a priority exactly from leaving the open state on, and no move of intake or of the other services lowers it |
| `Intake.BlockedOpenCaseIsRaised` | src/elcapitan/intake.py:207-217 | A case blocked before its first assessment gets it by a move that leaves it open underneath |
| `Intake.BlockedOpenCaseFalls` | src/elcapitan/intake.py:199-206 | Resumed, such a case takes the score of the next finding, however low: the guarantee needs that no service blocks an open case |
| `Intake.RemediationIntake.Existing` | src/elcapitan/intake.py:124-140 | The stored finding a raw one repeats, by its identity or by the older identity for the same resource and rule |
| `Intake.RemediationIntake.CurrentCase` | src/elcapitan/intake.py:155-176 | The active case of the asset, or a new one with the finding |
| `Intake.RemediationIntake.Attach` | src/elcapitan/intake.py:188-228 | Finding, priority and assignment, each skipped when already done, cut off at any crash |
| `Intake.RemediationIntake.Ingest` | src/elcapitan/intake.py:115-228 | However many writes it gets before a crash: every assigned finding is in its case, which is the one of its tenant and asset, with a score at most that of the case, no score falls, no other case changes; a finding already assigned changes nothing and returns its case |
| `Intake.AssetIdsDiffer` | src/elcapitan/intake.py:58-61 | Without colons in provider and account the asset id is the same exactly for the same provider, account and resource |
| `Intake.OneResourcePerCase` | src/elcapitan/intake.py:155-176 | Findings assigned to one case are about one resource of one tenant, whatever was ingested, crashed or moved before |
| `Intake.RemediationIntake.MovedByOthers` | src/elcapitan/intake.py:115-228 | Moves of the other services keep these guarantees |

## Left out

- HTTP servers, browser pages, the command line, report rendering, release scripts, and the clients of clouds and models: drivers, monitors, probes and agent runtimes are arbitrary answers, including raising.
- PostgreSQL stores and WAL: tables are maps and each transaction is one atomic step. The PostgreSQL job store, which does not accept `CONTAINED`, is not modelled.
- Texts that `utc_text` did not write: the job queue compares texts, and offsets or fractions of a second in the caller's `now` are not covered; the queue is modelled on instants and `Timestamps.TextOrderIsTimeOrder` connects the two.
- SHA-256, canonical JSON and generated ids are taken to be injective and fresh. Numbers are reals, so `1` and `1.0` are one value, and NaN is left out; an explicit null and an absent key read alike.
- Regular expressions and JSON Schema: header matches and contract checks are inputs or predicates; the patterns of the two source patches are written out, except the one that looks for the requested property in the proposal. A line of Terraform is one element of the list of lines, split at line feeds.
- The constructors' own field checks of risk assessments, plans and windows; an instance is taken to have passed them.
- Daylight-saving rules and floating-point means: zones have a fixed offset and averages are exact; rounding for display and the local text of a start are left out.
- `link_aws_cdk_s3_bucket`, `_cloud_identity`, `_candidate` and the other linkers, control packs, finding normalisation, asset context, egress redaction: flat checks that would add only easy members.
- ApprovalService and RejectionService: one read, checks, and one transition each.
- Preapproval.PreapprovalOrchestrator.PassGate: the checks of the gate other than the SRE review and the window (record owners and types, plan verification, rollback review, model diversity, evidence chain) are one answer, `gate`.
- Preapproval.PreapprovalOrchestrator.PreparePlan: the planning of a change, its runner and its own checks are one answer, `inputs` with the plan.
- Policy overrides of terminal records in agent runs.
- A crash inside the replacement of a file, which leaves the temporary sibling behind; decoding errors of texts.
- Preapproval.PreapprovalOrchestrator.AdvanceToHumanReview: no other writer moves the case during a run; with one, two reviews could each see a log without a rework.
- Intake.RemediationIntake.Ingest: ingests run one after another, so the branches for a lost race (`ConcurrentCaseUpdate`, a duplicate finding) are not taken; the order of priority scores is not promised under concurrency by the code either, since an advance re-reads the case after its decision was made.
- Execution.ExecutionService.Execute: no other writer moves the case during one execution; what holds with other writers is stated by `Dispatch.DeployAtMostOnce` and `Dispatch.RecordedOutcomeHolds`.
- PlanScope.PlanScope: receives the differences of each entry, since the tree difference is a specification function here; the difference itself is `PlanScope.ChangedPaths`.
- The id and the metadata of an agent task: the keys of the program ignore both, so a replay does not depend on them. Its case id is fixed, since the log is that of one case.
- AgentRuns.AgentRunRuntime.Run: the records of a case are kept in the order of writing; records with equal creation times that the store lists in another order are not covered. The elapsed time is taken from any invocation, which is the same as from the earliest.
- Scheduling.ExecutionScheduler.Schedule: other product records share the id space of the schedule record; only schedule records are kept here.
- Portfolio.Queue: the reasons given as text are left out; parsing of creation times and the search for the exposure factor are inputs.
