/** `ExecutionScheduler.schedule`: a job for an approved case, its schedule record, then the case. */
module Scheduling {
  import opened Common
  import opened Cases
  import opened Workflow
  import Execution
  import Q = Scheduler

  /** Where an attempt is cut short, if it is. */
  datatype Stop = Never | AfterJob | AfterRecord

  /** The ids and the time one attempt draws; `now` is the time it reads, `at` its text. */
  datatype Draw = Draw(jobId: string, scheduleId: string, eventId: string, now: int, at: string, crash: Stop)

  datatype ScheduleError = NotSchedulable | AlreadyScheduled | DuplicateRecord | NotStored | Crashed

  /** The stored `ExecutionSchedule.v1` record. */
  datatype ScheduleRecord = ScheduleRecord(caseId: string, jobId: string, executeAt: int, deadline: int,
                                           windowId: string, evidenceIds: seq<string>)

  type Schedules = map<string, ScheduleRecord>

  predicate HasJob(jobs: Q.Jobs, caseId: string) { exists id :: id in jobs && jobs[id].caseId == caseId }

  predicate Schedulable(c: RemediationCase, now: int) {
    c.state.Approved? && c.changeWindow.Some? && now < c.changeWindow.value.endsAt
  }

  function JobFor(c: RemediationCase, jobId: string): Q.ExecutionJob
    requires c.changeWindow.Some?
  {
    Q.NewJob(jobId, c.caseId, c.changeWindow.value.startsAt, c.changeWindow.value.endsAt)
  }

  function RecordFor(c: RemediationCase, jobId: string): ScheduleRecord
    requires c.changeWindow.Some?
  {
    var window := c.changeWindow.value;
    ScheduleRecord(c.caseId, jobId, window.startsAt, window.endsAt, window.windowId, window.evidenceIds)
  }

  function ScheduleRequest(c: RemediationCase, d: Draw): Request
    requires c.changeWindow.Some?
  {
    Request(ScheduleExecution, d.eventId, d.at, "execution-scheduler",
            map[ScheduleId := d.scheduleId, ExecutionJobId := d.jobId], c.changeWindow.value.evidenceIds, "",
            None, None, None, [])
  }

  /** What one attempt leaves in the three stores, and its answer. */
  datatype Attempted = Attempted(case_: RemediationCase, jobs: Q.Jobs, schedules: Schedules, result: Result<(), ScheduleError>)

  /** The job row is written first, then the record, then the case; what stops the attempt leaves the earlier writes. */
  function ScheduleIn(c: RemediationCase, jobs: Q.Jobs, schedules: Schedules, d: Draw): Attempted {
    if !Schedulable(c, d.now) then Attempted(c, jobs, schedules, Err(NotSchedulable))
    else if d.jobId in jobs || HasJob(jobs, c.caseId) then Attempted(c, jobs, schedules, Err(AlreadyScheduled))
    else
      var queued := jobs[d.jobId := JobFor(c, d.jobId)];
      if d.crash.AfterJob? then Attempted(c, queued, schedules, Err(Crashed))
      else if d.scheduleId in schedules then Attempted(c, queued, schedules, Err(DuplicateRecord))
      else
        var recorded := schedules[d.scheduleId := RecordFor(c, d.jobId)];
        if d.crash.AfterRecord? then Attempted(c, queued, recorded, Err(Crashed))
        else
          match TransitionCase(c, ScheduleRequest(c, d))
          case Err(_) => Attempted(c, queued, recorded, Err(NotStored))
          case Ok((next, _)) => Attempted(next, queued, recorded, Ok(()))
  }

  class ExecutionScheduler {
    const store: InMemoryCaseStore
    const jobStore: Q.SqliteExecutionJobStore
    var schedules: Schedules

    constructor (store: InMemoryCaseStore, jobStore: Q.SqliteExecutionJobStore)
      ensures this.store == store && this.jobStore == jobStore && schedules == map[]
    {
      this.store, this.jobStore, schedules := store, jobStore, map[];
    }

    method Schedule(caseId: string, d: Draw) returns (r: Result<(), ScheduleError>)
      requires store.Valid() && jobStore.Valid() && caseId in store.cases
      requires forall id :: id in store.cases ==> store.cases[id].caseId == id
      modifies this, store, jobStore
      ensures store.Valid() && jobStore.Valid() && caseId in store.cases
      ensures Attempted(store.cases[caseId], jobStore.jobs, schedules, r)
              == ScheduleIn(old(store.cases[caseId]), old(jobStore.jobs), old(schedules), d)
      ensures store.cases == old(store.cases)[caseId := store.cases[caseId]]
      ensures r.Ok? ==>
                && old(store.cases[caseId]).changeWindow.Some?
                && RowOf(jobStore.jobs, d.jobId, caseId, old(store.cases[caseId]).changeWindow.value)
                && ExecutionJobId in store.cases[caseId].recordIds && store.cases[caseId].recordIds[ExecutionJobId] == d.jobId
    {
      ScheduledMatchesJob(store.cases[caseId], jobStore.jobs, schedules, d);
      hide TransitionCase, RowOf;
      var c := store.cases[caseId];
      if !Schedulable(c, d.now) { return Err(NotSchedulable); }
      var put := jobStore.Put(JobFor(c, d.jobId));
      if put.Err? { return Err(AlreadyScheduled); }
      if d.crash.AfterJob? { return Err(Crashed); }
      if d.scheduleId in schedules { return Err(DuplicateRecord); }
      schedules := schedules[d.scheduleId := RecordFor(c, d.jobId)];
      if d.crash.AfterRecord? { return Err(Crashed); }
      var advanced := Advance(store, caseId, ScheduleRequest(c, d));
      r := if advanced.Err? then Err(NotStored) else Ok(());
    }
  }

  // ----- When an attempt succeeds, and what it is good for -----

  /** The ids an attempt draws are new and usable, and nothing cuts it short. */
  predicate Usable(d: Draw, jobs: Q.Jobs, schedules: Schedules) {
    && d.jobId !in jobs && d.scheduleId !in schedules && d.crash.Never?
    && d.scheduleId != "" && d.eventId != "" && d.at != ""
  }

  /** An attempt succeeds if and only if the case is approved with its window ahead and has no job yet. */
  lemma ScheduledIff(c: RemediationCase, jobs: Q.Jobs, schedules: Schedules, d: Draw)
    requires c.caseId != ""
    ensures ScheduleIn(c, jobs, schedules, d).result.Ok? <==>
              && c.state.Approved? && c.changeWindow.Some? && d.now < c.changeWindow.value.endsAt
              && (forall id :: id in jobs ==> jobs[id].caseId != c.caseId) && Usable(d, jobs, schedules)
  {
  }

  /** The job row, as the queue holds it: for this case, over its window, and not yet touched by any worker. */
  predicate RowOf(jobs: Q.Jobs, jobId: string, caseId: string, window: ChangeWindow) {
    && jobId in jobs
    && var job := jobs[jobId];
    && job.jobId == jobId && job.caseId == caseId
    && job.executeAt == window.startsAt && job.deadline == window.endsAt
    && job.state.Scheduled? && job.attempts == 0 && job.leaseOwner == "" && job.leaseUntil.None? && job.detail == ""
  }

  /** A successful attempt leaves the job row, a record that says the same, and a case that names both; it writes nothing
      else, and the case has no other job. */
  lemma ScheduledMatchesJob(c: RemediationCase, jobs: Q.Jobs, schedules: Schedules, d: Draw)
    ensures var after := ScheduleIn(c, jobs, schedules, d);
            after.result.Ok? ==>
              var next, window := after.case_, c.changeWindow.value;
              && next.state.Approved? && next.changeWindow == c.changeWindow == Some(window)
              && ScheduleId in next.recordIds && next.recordIds[ScheduleId] == d.scheduleId != ""
              && ExecutionJobId in next.recordIds && next.recordIds[ExecutionJobId] == d.jobId
              && RowOf(after.jobs, d.jobId, c.caseId, window)
              && d.scheduleId in after.schedules
              && var record := after.schedules[d.scheduleId];
              && record.caseId == c.caseId && record.jobId == d.jobId && record.windowId == window.windowId
              && record.executeAt == window.startsAt && record.deadline == window.endsAt
              && record.evidenceIds == window.evidenceIds
              && (forall id :: id in after.jobs && after.jobs[id].caseId == c.caseId ==> id == d.jobId)
              && after.jobs - {d.jobId} == jobs && after.schedules - {d.scheduleId} == schedules
  {
    if ScheduleIn(c, jobs, schedules, d).result.Ok? { ScheduledCase(c, d); }
    hide TransitionCase;
  }

  /** What the scheduling event puts on the case. */
  lemma ScheduledCase(c: RemediationCase, d: Draw)
    requires c.changeWindow.Some? && TransitionCase(c, ScheduleRequest(c, d)).Ok?
    ensures var next := TransitionCase(c, ScheduleRequest(c, d)).value.0;
            && next.state.Approved? && next.changeWindow == c.changeWindow
            && next.recordIds == c.recordIds + map[ScheduleId := d.scheduleId, ExecutionJobId := d.jobId]
            && d.scheduleId != ""
  {
    assert c.recordIds - {} == c.recordIds;
  }

  /** The new job can be claimed at exactly the instants at which `execute` lets the scheduled case through, and is
      written off as missed from the end of the window on. */
  lemma EligibleWhenBound(c: RemediationCase, jobs: Q.Jobs, schedules: Schedules, d: Draw, now: int)
    requires d.jobId != "" && ScheduleIn(c, jobs, schedules, d).result.Ok?
    ensures var after := ScheduleIn(c, jobs, schedules, d);
            && (Q.Eligible(after.jobs[d.jobId], now) <==> Execution.Bound(after.case_, d.jobId, now))
            && (Q.WithMissed(after.jobs, now)[d.jobId].state.Missed? <==> c.changeWindow.value.endsAt <= now)
  {
    ScheduledMatchesJob(c, jobs, schedules, d);
    hide ScheduleIn;
  }

  // ----- One case among its moves -----

  /** Other services, the job queue, and attempts to schedule the case. */
  datatype Move =
    | ByService(request: Request)
    | ByQueue(op: Q.Op)
    | Attempt(draw: Draw)

  datatype Desk = Desk(case_: RemediationCase, queue: Q.Queue, schedules: Schedules)

  /** Services other than the scheduler record no schedule. */
  predicate Honest(m: Move) {
    m.ByService? ==> !m.request.transition.ScheduleExecution? && ScheduleId !in m.request.recordIds
  }

  /** Nobody but the scheduler puts a job for the case. */
  predicate NoForeignJob(m: Move, caseId: string) { m.ByQueue? && m.op.PutOp? ==> m.op.caseId != caseId }

  ghost function After(d: Desk, m: Move): Desk {
    match m
    case ByService(request) =>
      (match TransitionCase(d.case_, request)
       case Err(_) => d
       case Ok((next, _)) => d.(case_ := next))
    case ByQueue(op) => d.(queue := Q.Next(d.queue, op))
    case Attempt(draw) =>
      var after := ScheduleIn(d.case_, d.queue.jobs, d.schedules, draw);
      Desk(after.case_, d.queue.(jobs := after.jobs), after.schedules)
  }

  ghost function AfterAll(d: Desk, moves: seq<Move>): Desk {
    if moves == [] then d else After(AfterAll(d, moves[..|moves| - 1]), moves[|moves| - 1])
  }

  /** The case has a job but no schedule. */
  ghost predicate Stranded(d: Desk) { HasJob(d.queue.jobs, d.case_.caseId) && ScheduleId !in d.case_.recordIds }

  /** An attempt that gets as far as the job row. */
  ghost predicate WritesJob(d: Desk, m: Move) {
    && m.Attempt? && Schedulable(d.case_, m.draw.now)
    && m.draw.jobId !in d.queue.jobs && !HasJob(d.queue.jobs, d.case_.caseId)
  }

  /** No queue operation takes a job away from its case. */
  lemma JobsStay(q: Q.Queue, op: Q.Op, caseId: string)
    requires HasJob(q.jobs, caseId)
    ensures HasJob(Q.Next(q, op).jobs, caseId)
  {
    var id :| id in q.jobs && q.jobs[id].caseId == caseId;
    assert id in Q.Next(q, op).jobs && Q.Next(q, op).jobs[id].caseId == caseId;
  }

  /** Claims and completions give a case no job, and puts only the one they name. */
  lemma JobsAreNotInvented(q: Q.Queue, op: Q.Op, caseId: string)
    requires Q.Keyed(q.jobs) && !HasJob(q.jobs, caseId) && (op.PutOp? ==> op.caseId != caseId)
    ensures !HasJob(Q.Next(q, op).jobs, caseId)
  {
    var after := Q.Next(q, op);
    forall id | id in after.jobs ensures after.jobs[id].caseId != caseId {
      assert id in q.jobs ==> after.jobs[id].caseId == q.jobs[id].caseId;
    }
  }

  lemma KeysStay(d: Desk, m: Move)
    requires Q.Keyed(d.queue.jobs)
    ensures Q.Keyed(After(d, m).queue.jobs)
  {
    hide TransitionCase;
  }

  lemma JobStep(d: Desk, m: Move)
    requires Q.Keyed(d.queue.jobs) && NoForeignJob(m, d.case_.caseId)
    ensures After(d, m).case_.caseId == d.case_.caseId
    ensures HasJob(After(d, m).queue.jobs, d.case_.caseId) <==> HasJob(d.queue.jobs, d.case_.caseId) || WritesJob(d, m)
  {
    match m
    case ByService(request) => if TransitionCase(d.case_, request).Ok? { TransitionFrame(d.case_, request); }
    case ByQueue(op) =>
      if HasJob(d.queue.jobs, d.case_.caseId) {
        JobsStay(d.queue, op, d.case_.caseId);
      } else {
        JobsAreNotInvented(d.queue, op, d.case_.caseId);
      }
    case Attempt(draw) =>
      var after := ScheduleIn(d.case_, d.queue.jobs, d.schedules, draw);
      if WritesJob(d, m) { assert draw.jobId in after.jobs && after.jobs[draw.jobId].caseId == d.case_.caseId; }
  }

  /** The case has a job exactly if it had one at the start or an attempt since has written one. */
  lemma {:induction false} JobsSince(d: Desk, moves: seq<Move>)
    requires Q.Keyed(d.queue.jobs) && forall m :: m in moves ==> NoForeignJob(m, d.case_.caseId)
    ensures var now := AfterAll(d, moves);
            && Q.Keyed(now.queue.jobs) && now.case_.caseId == d.case_.caseId
            && (HasJob(now.queue.jobs, d.case_.caseId) <==> HasJob(d.queue.jobs, d.case_.caseId) || Written(d, moves))
  {
    hide After, HasJob, WritesJob, NoForeignJob;
    if moves != [] {
      var shorter := moves[..|moves| - 1];
      JobsSince(d, shorter);
      var before := AfterAll(d, shorter);
      KeysStay(before, moves[|moves| - 1]);
      JobStep(before, moves[|moves| - 1]);
      WrittenExtends(d, moves);
    }
  }

  /** Some attempt among the moves got as far as the job row. */
  ghost predicate Written(d: Desk, moves: seq<Move>) {
    exists k :: 0 <= k < |moves| && WritesJob(AfterAll(d, moves[..k]), moves[k])
  }

  lemma WrittenExtends(d: Desk, moves: seq<Move>)
    requires moves != []
    ensures var shorter := moves[..|moves| - 1];
            Written(d, moves) <==> Written(d, shorter) || WritesJob(AfterAll(d, shorter), moves[|moves| - 1])
  {
    hide WritesJob, AfterAll;
    var shorter := moves[..|moves| - 1];
    assert forall k :: 0 <= k < |shorter| ==> shorter[..k] == moves[..k] && shorter[k] == moves[k];
    if Written(d, shorter) {
      var k :| 0 <= k < |shorter| && WritesJob(AfterAll(d, shorter[..k]), shorter[k]);
      assert WritesJob(AfterAll(d, moves[..k]), moves[k]);
    }
  }

  /** A case reopened by a finding and approved again, its new window ahead, can be scheduled if and only if it had no
      job when it was reopened and no attempt since has left one. */
  lemma ReapprovedScheduledIff(d: Desk, r: Request, moves: seq<Move>, draw: Draw)
    requires Q.Keyed(d.queue.jobs) && d.case_.caseId != ""
    requires TransitionCase(d.case_, r).Ok? && Reopens(d.case_.state, r.transition)
    requires forall m :: m in moves ==> NoForeignJob(m, d.case_.caseId)
    requires var now := AfterAll(After(d, ByService(r)), moves);
             Schedulable(now.case_, draw.now) && Usable(draw, now.queue.jobs, now.schedules)
    ensures var start := After(d, ByService(r));
            var now := AfterAll(start, moves);
            ScheduleIn(now.case_, now.queue.jobs, now.schedules, draw).result.Ok? <==>
              !HasJob(d.queue.jobs, d.case_.caseId) && !Written(start, moves)
  {
    TransitionFrame(d.case_, r);
    var start := After(d, ByService(r));
    assert start.queue == d.queue && start.case_.caseId == d.case_.caseId;
    hide TransitionCase, ScheduleIn, HasJob, Written, After, Usable, Schedulable;
    JobsSince(start, moves);
    var now := AfterAll(start, moves);
    ScheduledIff(now.case_, now.queue.jobs, now.schedules, draw);
  }

  // ----- Cases that can never be scheduled again -----

  /** A finding that reopens a case drops its schedule and leaves its job: it strands the case if and only if there is
      a job. */
  lemma ReopeningStrandsIff(d: Desk, r: Request)
    requires TransitionCase(d.case_, r).Ok? && Reopens(d.case_.state, r.transition) && ScheduleId !in r.recordIds
    ensures Stranded(After(d, ByService(r))) <==> HasJob(d.queue.jobs, d.case_.caseId)
  {
    TransitionFrame(d.case_, r);
  }

  /** An attempt strands a case without job and schedule if and only if it stops after the job row: by a crash, by a
      record id in use, or by a refusal of the case. */
  lemma AttemptStrandsIff(d: Desk, draw: Draw)
    requires ScheduleId !in d.case_.recordIds && !HasJob(d.queue.jobs, d.case_.caseId)
    ensures Stranded(After(d, Attempt(draw))) <==>
              WritesJob(d, Attempt(draw)) && ScheduleIn(d.case_, d.queue.jobs, d.schedules, draw).result.Err?
    ensures ScheduleIn(d.case_, d.queue.jobs, d.schedules, draw).result == Err(NotStored) ==>
              Stranded(After(d, Attempt(draw)))
  {
    var after := ScheduleIn(d.case_, d.queue.jobs, d.schedules, draw);
    if WritesJob(d, Attempt(draw)) {
      assert draw.jobId in after.jobs && after.jobs[draw.jobId].caseId == d.case_.caseId;
    }
  }

  lemma StrandedStep(d: Desk, m: Move)
    requires Stranded(d) && Honest(m)
    ensures Stranded(After(d, m)) && After(d, m).case_.caseId == d.case_.caseId
  {
    match m
    case ByService(request) =>
      if TransitionCase(d.case_, request).Ok? { TransitionFrame(d.case_, request); }
    case ByQueue(op) => JobsStay(d.queue, op, d.case_.caseId);
    case Attempt(_) =>
  }

  /** A stranded case stays so for good: no attempt schedules it and no execution of it is released. */
  lemma {:induction false} StrandedForGood(d: Desk, moves: seq<Move>)
    requires Stranded(d) && forall m :: m in moves ==> Honest(m)
    ensures var now := AfterAll(d, moves);
            && Stranded(now)
            && (forall draw :: ScheduleIn(now.case_, now.queue.jobs, now.schedules, draw).result.Err?)
            && (forall originator, jobId, package, at :: !Execution.Released(now.case_, originator, jobId, package, at))
  {
    if moves != [] {
      StrandedForGood(d, moves[..|moves| - 1]);
      StrandedStep(AfterAll(d, moves[..|moves| - 1]), moves[|moves| - 1]);
    }
  }

  // ----- A run that fails -----

  function StageRequest(t: Transition, plan: ChangePlan, window: ChangeWindow): Request {
    Request(t, "event", "time", "service",
            if RequiredRecord(t).Some? then map[RequiredRecord(t).value := "record"] else map[], [], "", None,
            if t.PreparePlan? then Some(plan) else None, if t.SelectWindow? then Some(window) else None, [])
  }

  function Staged(c: RemediationCase, t: Transition, plan: ChangePlan, window: ChangeWindow): RemediationCase {
    var result := TransitionCase(c, StageRequest(t, plan, window));
    if result.Ok? then result.value.0 else c
  }

  /** The stages from validation to the human approval. */
  function Passage(c: RemediationCase, plan: ChangePlan, window: ChangeWindow): RemediationCase {
    var planned := Staged(Staged(c, Validate, plan, window), PreparePlan, plan, window);
    var selected := Staged(Staged(planned, ApproveSre, plan, window), SelectWindow, plan, window);
    var proposed := Staged(Staged(selected, ReviewRollback, plan, window), RequestApproval, plan, window);
    Staged(proposed, ApproveChange, plan, window)
  }

  lemma Stage(c: RemediationCase, t: Transition, plan: ChangePlan, window: ChangeWindow)
    requires c.caseId != "" && LinearTarget(c.state, t).Some? && !t.Prioritize?
    ensures var next := Staged(c, t, plan, window);
            && Some(next.state) == LinearTarget(c.state, t)
            && next.caseId == c.caseId && next.findingIds == c.findingIds
            && next.changeWindow == (if t.SelectWindow? then Some(window) else c.changeWindow)
  {
  }

  /** The passage takes any case from PRIORITIZED to APPROVED with the window. */
  lemma PassageApproves(c: RemediationCase, plan: ChangePlan, window: ChangeWindow)
    requires c.state.Prioritized? && c.caseId != ""
    ensures var now := Passage(c, plan, window);
            && now.state.Approved? && now.changeWindow == Some(window)
            && now.caseId == c.caseId && now.findingIds == c.findingIds
  {
    hide Staged;
    Stage(c, Validate, plan, window);
    var validated := Staged(c, Validate, plan, window);
    Stage(validated, PreparePlan, plan, window);
    var planned := Staged(validated, PreparePlan, plan, window);
    Stage(planned, ApproveSre, plan, window);
    var reviewed := Staged(planned, ApproveSre, plan, window);
    Stage(reviewed, SelectWindow, plan, window);
    var selected := Staged(reviewed, SelectWindow, plan, window);
    Stage(selected, ReviewRollback, plan, window);
    var ready := Staged(selected, ReviewRollback, plan, window);
    Stage(ready, RequestApproval, plan, window);
    Stage(Staged(ready, RequestApproval, plan, window), ApproveChange, plan, window);
  }

  /** After a successful attempt the case is still approved and has its job. */
  lemma AttemptedKeeps(c: RemediationCase, jobs: Q.Jobs, schedules: Schedules, draw: Draw)
    requires c.caseId != "" && ScheduleIn(c, jobs, schedules, draw).result.Ok?
    ensures var after := ScheduleIn(c, jobs, schedules, draw);
            && after.case_.state.Approved? && after.case_.caseId == c.caseId
            && after.case_.findingIds == c.findingIds && HasJob(after.jobs, c.caseId)
  {
    var queued := ScheduleIn(c, jobs, schedules, draw).jobs;
    assert draw.jobId in queued && queued[draw.jobId].caseId == c.caseId;
  }

  lemma FindingReopens(c: RemediationCase, findingId: string)
    requires c.state.Approved? && c.caseId != "" && findingId != "" && findingId !in c.findingIds
    ensures var after := TransitionCase(c, FindingRequest(findingId));
            after.Ok? && after.value.0.state.Prioritized? && after.value.0.caseId == c.caseId
  {
    assert NewFindings(c.findingIds, [findingId]) == [findingId];
  }

  function FindingRequest(findingId: string): Request {
    Request(AddFinding, "event", "time", "intake", map[FindingId := findingId], [], "", None, None, None, [findingId])
  }

  /** The run: approved, scheduled, reopened by a finding, approved again with its window ahead, and then refused. */
  lemma ReapprovedIsRefused(c: RemediationCase, jobs: Q.Jobs, schedules: Schedules, plan: ChangePlan, window: ChangeWindow,
                            first: Draw, findingId: string, second: Draw)
    requires c.state.Prioritized? && c.caseId != "" && !HasJob(jobs, c.caseId)
    requires Usable(first, jobs, schedules) && findingId != "" && findingId !in c.findingIds
    requires first.now < window.endsAt && second.now < window.endsAt
    ensures var scheduled := ScheduleIn(Passage(c, plan, window), jobs, schedules, first);
            var reopened := TransitionCase(scheduled.case_, FindingRequest(findingId));
            && scheduled.result.Ok? && reopened.Ok? && reopened.value.0.state.Prioritized?
            && var again := Passage(reopened.value.0, plan, window);
            && Schedulable(again, second.now)
            && ScheduleIn(again, scheduled.jobs, scheduled.schedules, second).result == Err(AlreadyScheduled)
  {
    hide Passage, TransitionCase, Usable;
    PassageApproves(c, plan, window);
    var approved := Passage(c, plan, window);
    ScheduledIff(approved, jobs, schedules, first);
    var scheduled := ScheduleIn(approved, jobs, schedules, first);
    AttemptedKeeps(approved, jobs, schedules, first);
    FindingReopens(scheduled.case_, findingId);
    PassageApproves(TransitionCase(scheduled.case_, FindingRequest(findingId)).value.0, plan, window);
  }
}
