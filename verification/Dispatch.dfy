/**
 * The queue, the case store and any number of execution threads together.  Threads claim jobs,
 * lose leases, reclaim, crash and execute while other services keep moving cases.
 */
module Dispatch {
  import opened Common
  import opened Cases
  import opened CaseShape
  import opened CaseLog
  import opened Workflow
  import I = Interleaving
  import Q = Scheduler
  import Execution

  /** The transitions `execute` asks for, in the order its branches allow. */
  datatype Goal = Start | Verify | Finish | RollBack | Restored | Contain | GiveUp

  /** Where a thread is; `job` is the row it claimed, whose lease owner is its worker id. */
  datatype Phase =
    | Idle
    | Holding(job: Q.ExecutionJob)
    | Advancing(job: Q.ExecutionJob, goal: Goal, request: Request, read: bool)
    | Deploying(job: Q.ExecutionJob)
    | Observing(job: Q.ExecutionJob)
    | Probing(job: Q.ExecutionJob)
    | Recovering(job: Q.ExecutionJob)
    | Finishing(job: Q.ExecutionJob, outcome: Q.JobState)

  /** `deploys` lists the cases `driver.deploy` was called for, in call order. */
  datatype World = World(sys: I.System, queue: Q.Queue, threads: map<nat, Phase>, deploys: seq<string>)

  datatype Action =
    | Other(step: I.Step)
    | Put(id: string, caseId: string, executeAt: int, deadline: int)
    | Claim(claimer: nat, now: int, worker: string, leaseSeconds: int)
    | Begin(thread: nat, goal: Goal, request: Request, now: int)
    | Read(reader: nat)
    | Append(appender: nat)
    | Deploy(deployer: nat)
    | Complete(completer: nat, detail: string)
    | Crash(victim: nat)

  function TransitionOf(goal: Goal): Transition {
    match goal
    case Start => StartExecution
    case Verify => StartVerification
    case Finish => CompleteRemediation
    case RollBack => StartRollback
    case Restored => CompleteRollback
    case Contain => Block
    case GiveUp => Block
  }

  /** The goals a phase may pursue. */
  predicate Pursues(phase: Phase, goal: Goal) {
    match phase
    case Holding(_) => goal.Start?
    case Observing(_) => goal.Verify? || goal.RollBack?
    case Probing(_) => goal.Finish? || goal.RollBack?
    case Recovering(_) => goal.Restored? || goal.Contain? || goal.GiveUp?
    case _ => false
  }

  /** Where `execute` continues once the transition is stored. */
  function After(job: Q.ExecutionJob, goal: Goal): Phase {
    match goal
    case Start => Deploying(job)
    case Verify => Probing(job)
    case RollBack => Recovering(job)
    case Finish => Finishing(job, Q.Succeeded)
    case Restored => Finishing(job, Q.RolledBack)
    case Contain => Finishing(job, Q.Contained)
    case GiveUp => Finishing(job, Q.Failed)
  }

  function PhaseOf(w: World, thread: nat): Phase {
    if thread in w.threads then w.threads[thread] else Idle
  }

  function Move(w: World, thread: nat, phase: Phase): World {
    w.(threads := w.threads[thread := phase])
  }

  /** `advance` gave up: `execute` raises and the worker will record a failure. */
  function Raise(w: World, thread: nat, job: Q.ExecutionJob): World {
    Move(w, thread, Finishing(job, Q.Failed))
  }

  ghost function Act(w: World, a: Action): World
    requires I.Keyed(w.sys)
  {
    match a
    case Other(step) =>
      if step.AppendStep? && step.author in w.threads then w
      else if step.ReadStep? && step.worker in w.threads then w
      else w.(sys := I.Next(w.sys, step))
    case Put(id, caseId, executeAt, deadline) =>
      w.(queue := Q.Next(w.queue, Q.PutOp(id, caseId, executeAt, deadline)))
    case Claim(thread, now, worker, leaseSeconds) =>
      if !PhaseOf(w, thread).Idle? then w
      else
        var after := w.(queue := Q.Next(w.queue, Q.ClaimOp(now, worker, leaseSeconds)));
        var claimed := Q.Claim(w.queue.jobs, now, worker, leaseSeconds).1;
        if worker == "" || leaseSeconds <= 0 || claimed.None? then after
        else Move(after, thread, Holding(claimed.value))
    case Begin(thread, goal, request, now) =>
      var phase := PhaseOf(w, thread);
      if !Pursues(phase, goal) || request.transition != TransitionOf(goal) then w
      else if goal.Start? && !(phase.job.caseId in w.sys.table.cases
                               && Execution.Bound(w.sys.table.cases[phase.job.caseId], phase.job.jobId, now))
      then Raise(w, thread, phase.job)
      else Move(w, thread, Advancing(phase.job, goal, request, false))
    case Read(thread) =>
      var phase := PhaseOf(w, thread);
      if !phase.Advancing? || phase.read then w
      else if phase.job.caseId !in w.sys.table.cases then Raise(w, thread, phase.job)
      else Move(w, thread, phase.(read := true)).(sys := I.Next(w.sys, I.ReadStep(thread, phase.job.caseId)))
    case Append(thread) =>
      var phase := PhaseOf(w, thread);
      if !phase.Advancing? || !phase.read then w
      else
        var after := w.(sys := I.Next(w.sys, I.AppendStep(thread, phase.request)));
        if I.Appended(w.sys, thread, phase.request).Ok? then Move(after, thread, After(phase.job, phase.goal))
        else Raise(after, thread, phase.job)
    case Deploy(thread) =>
      var phase := PhaseOf(w, thread);
      if !phase.Deploying? then w
      else Move(w, thread, Observing(phase.job)).(deploys := w.deploys + [phase.job.caseId])
    case Complete(thread, detail) =>
      var phase := PhaseOf(w, thread);
      if !phase.Finishing? then w
      else if Q.Holds(w.queue.jobs, phase.job.jobId, phase.job.leaseOwner) then
        Move(w.(queue := Q.Next(w.queue, Q.CompleteOp(phase.job.jobId, phase.job.leaseOwner, phase.outcome, detail))),
             thread, Idle)
      else if phase.outcome.Failed? then Move(w, thread, Idle)
      else Raise(w, thread, phase.job)
    case Crash(thread) => if thread in w.threads then Move(w, thread, Idle) else w
  }

  lemma ActKeyed(w: World, a: Action)
    requires I.Keyed(w.sys)
    ensures I.Keyed(Act(w, a).sys)
  {
  }

  ghost function Execute(actions: seq<Action>): (w: World)
    ensures I.Keyed(w.sys)
  {
    if actions == [] then World(I.EMPTY, Q.Queue(map[], []), map[], [])
    else
      var before := Execute(actions[..|actions| - 1]);
      ActKeyed(before, actions[|actions| - 1]);
      Act(before, actions[|actions| - 1])
  }

  function Deploys(ids: seq<string>, id: string): nat {
    if ids == [] then 0 else Deploys(ids[..|ids| - 1], id) + (if ids[|ids| - 1] == id then 1 else 0)
  }

  // ----- What no step takes back -----

  function StartsOf(s: I.System, id: string): nat
    requires I.Keyed(s)
  {
    if id in s.table.cases then Starts(s.table.events[id]) else 0
  }

  ghost predicate InState(s: I.System, id: string, states: set<CaseState>) {
    id in s.table.cases && s.table.cases[id].Effective() in states
  }

  const RECOVERY: set<CaseState> := {RollingBack, RolledBack}

  /** Starts are never unstored, and outcomes and recovery are never left. */
  ghost predicate Evolves(s: I.System, s': I.System)
    requires I.Keyed(s) && I.Keyed(s')
  {
    && (forall id :: StartsOf(s, id) <= StartsOf(s', id))
    && (forall id :: InState(s, id, {Remediated}) ==> InState(s', id, {Remediated}))
    && (forall id :: InState(s, id, {RolledBack}) ==> InState(s', id, {RolledBack}))
    && (forall id :: InState(s, id, RECOVERY) ==> InState(s', id, RECOVERY))
  }

  /** Finished cases take no transition; a case being rolled back only blocks, resumes or finishes. */
  lemma RecoveryHeld(c: RemediationCase, r: Request)
    requires BlockingShape(c) && TransitionCase(c, r).Ok?
    ensures !c.Effective().Remediated? && !c.Effective().RolledBack?
    ensures c.Effective().RollingBack? ==> TransitionCase(c, r).value.0.Effective() in RECOVERY
  {
  }

  lemma StartsExtend(events: Log, e: CaseEvent)
    ensures Starts(events + [e]) == Starts(events) + (if e.transition.StartExecution? then 1 else 0)
  {
    assert (events + [e])[..|events + [e]| - 1] == events;
  }

  /** An accepted append, and what it made of its case. */
  lemma AcceptedAppend(s: I.System, step: I.Step)
    requires I.Sound(s) && step.AppendStep? && I.Appended(s, step.author, step.request).Ok?
    ensures var c := s.pending[step.author];
            var (next, event, table) := I.Appended(s, step.author, step.request).value;
            && c.caseId in s.table.cases && s.table.cases[c.caseId] == c
            && TransitionCase(c, step.request) == Ok((next, event)) && BlockingShape(c)
            && I.Next(s, step).table == Table(s.table.cases[c.caseId := next],
                                              s.table.events[c.caseId := s.table.events[c.caseId] + [event]])
  {
    hide TransitionCase, Produced, AttachmentShape, RecordShape;
    I.AppendedIsCurrent(s, step.author, step.request);
    I.ProducedShape(s.pending[step.author], s.table.events[s.pending[step.author].caseId]);
  }

  lemma StartsGrow(s: I.System, step: I.Step, id: string)
    requires I.Sound(s)
    ensures StartsOf(s, id) <= StartsOf(I.Next(s, step), id)
  {
    hide TransitionCase, Produced, Starts;
    if step.AppendStep? && I.Appended(s, step.author, step.request).Ok? {
      AcceptedAppend(s, step);
      var c := s.pending[step.author];
      StartsExtend(s.table.events[c.caseId], I.Appended(s, step.author, step.request).value.1);
    }
  }

  /** A recovery, or either of its two outcomes, is never left. */
  lemma StatesKept(s: I.System, step: I.Step, id: string, states: set<CaseState>)
    requires I.Sound(s) && states in {{Remediated}, {RolledBack}, RECOVERY} && InState(s, id, states)
    ensures InState(I.Next(s, step), id, states)
  {
    hide TransitionCase, Produced, Starts;
    if step.AppendStep? && I.Appended(s, step.author, step.request).Ok? {
      AcceptedAppend(s, step);
      RecoveryHeld(s.pending[step.author], step.request);
    }
  }

  lemma SystemEvolves(s: I.System, step: I.Step)
    requires I.Sound(s)
    ensures Evolves(s, I.Next(s, step))
  {
    assert I.Keyed(s) && I.Keyed(I.Next(s, step));
    hide I.Sound, I.Next, InState, StartsOf;
    forall id ensures StartsOf(s, id) <= StartsOf(I.Next(s, step), id) { StartsGrow(s, step, id); }
    forall id, states | states in {{Remediated}, {RolledBack}, RECOVERY} && InState(s, id, states)
      ensures InState(I.Next(s, step), id, states)
    {
      StatesKept(s, step, id, states);
    }
  }

  // ----- The invariant -----

  /** What a phase entitles its thread to rely on. */
  ghost predicate PhaseSound(w: World, phase: Phase)
    requires I.Keyed(w.sys)
  {
    && (!phase.Idle? ==> JobClaimed(w, phase.job))
    && (phase.Deploying? ==>
          StartsOf(w.sys, phase.job.caseId) == 1 && phase.job.caseId !in w.deploys)
    && (phase.Recovering? || (phase.Advancing? && phase.goal in {Restored, Contain, GiveUp}) ==>
          InState(w.sys, phase.job.caseId, RECOVERY))
    && (phase.Advancing? ==> phase.request.transition == TransitionOf(phase.goal))
    && (phase.Finishing? ==> Q.Completion(phase.outcome) && OutcomeHolds(w, phase.job.caseId, phase.outcome))
  }

  /** The job is a stored row, for the same case, and it has been claimed. */
  ghost predicate JobClaimed(w: World, job: Q.ExecutionJob) {
    && job.jobId in w.queue.jobs
    && w.queue.jobs[job.jobId].caseId == job.caseId
    && w.queue.jobs[job.jobId].attempts > 0
  }

  ghost predicate OutcomeHolds(w: World, caseId: string, outcome: Q.JobState) {
    && (outcome.Succeeded? ==> InState(w.sys, caseId, {Remediated}))
    && (outcome.RolledBack? ==> InState(w.sys, caseId, {RolledBack}))
    && (outcome.Contained? ==> InState(w.sys, caseId, RECOVERY))
  }

  predicate AboutToDeploy(w: World, t: nat) { t in w.threads && w.threads[t].Deploying? }

  /** A thread that has read for its job holds a projection of the job's case. */
  predicate ReadsOwnCase(pending: map<nat, RemediationCase>, t: nat, phase: Phase) {
    phase.Advancing? && phase.read && t in pending ==> pending[t].caseId == phase.job.caseId
  }

  ghost predicate ThreadsSound(w: World)
    requires I.Keyed(w.sys)
  {
    && (forall t :: t in w.threads ==> PhaseSound(w, w.threads[t]))
    && (forall t :: t in w.threads ==> ReadsOwnCase(w.sys.pending, t, w.threads[t]))
    && (forall t, u :: AboutToDeploy(w, t) && AboutToDeploy(w, u)
                       && w.threads[t].job.caseId == w.threads[u].job.caseId
                       ==> t == u)
  }

  ghost predicate DeploysSound(w: World)
    requires I.Keyed(w.sys)
  {
    forall id :: id in w.deploys ==>
      && Deploys(w.deploys, id) == 1
      && StartsOf(w.sys, id) == 1
      && exists jobId :: jobId in w.queue.jobs && w.queue.jobs[jobId].caseId == id && w.queue.jobs[jobId].attempts > 0
  }

  ghost predicate JobsSound(w: World) {
    forall jobId :: jobId in w.queue.jobs ==>
      OutcomeHolds(w, w.queue.jobs[jobId].caseId, w.queue.jobs[jobId].state)
  }

  ghost predicate Safe(w: World) {
    && I.Keyed(w.sys) && I.Sound(w.sys)
    && Q.Keyed(w.queue.jobs) && Q.QueueInvariant(w.queue)
    && ThreadsSound(w) && DeploysSound(w) && JobsSound(w)
  }

  lemma StartsBounded(s: I.System, id: string)
    requires I.Sound(s)
    ensures StartsOf(s, id) <= 1
  {
    if id in s.table.cases { StartsFromRank(s.table.cases[id], s.table.events[id]); }
  }

  /** Rows persist, keep their case, and are never unclaimed. */
  ghost predicate RowsPersist(before: Q.Jobs, after: Q.Jobs) {
    forall id :: id in before ==>
      id in after && after[id].caseId == before[id].caseId && after[id].attempts >= before[id].attempts
  }

  lemma QueuePersists(q: Q.Queue, op: Q.Op)
    ensures RowsPersist(q.jobs, Q.Next(q, op).jobs)
  {
  }

  /** The queue changes a state only to missed, running, or the completion asked for. */
  lemma StatesAfter(q: Q.Queue, op: Q.Op, id: string)
    requires Q.Keyed(q.jobs) && id in Q.Next(q, op).jobs
    ensures var after := Q.Next(q, op).jobs[id];
            || (id in q.jobs && after.state == q.jobs[id].state)
            || !Q.Completion(after.state)
            || (op.CompleteOp? && op.jobId == id && after.state == op.state && Q.Holds(q.jobs, id, op.owner))
  {
  }

  /** Facts about others survive any evolution of store and queue. */
  lemma PhaseKept(w: World, w': World, phase: Phase)
    requires I.Keyed(w.sys) && I.Sound(w'.sys) && Evolves(w.sys, w'.sys)
    requires RowsPersist(w.queue.jobs, w'.queue.jobs)
    requires PhaseSound(w, phase)
    requires phase.Deploying? ==> phase.job.caseId !in w'.deploys
    ensures PhaseSound(w', phase)
  {
    if phase.Deploying? { StartsBounded(w'.sys, phase.job.caseId); }
  }

  lemma DeploysKept(w: World, w': World)
    requires I.Keyed(w.sys) && I.Sound(w'.sys) && Evolves(w.sys, w'.sys)
    requires RowsPersist(w.queue.jobs, w'.queue.jobs)
    requires DeploysSound(w) && w'.deploys == w.deploys
    ensures DeploysSound(w')
  {
    forall id | id in w'.deploys
      ensures StartsOf(w'.sys, id) == 1
      ensures exists jobId :: jobId in w'.queue.jobs && w'.queue.jobs[jobId].caseId == id && w'.queue.jobs[jobId].attempts > 0
    {
      StartsBounded(w'.sys, id);
      var jobId :| jobId in w.queue.jobs && w.queue.jobs[jobId].caseId == id && w.queue.jobs[jobId].attempts > 0;
      assert jobId in w'.queue.jobs;
    }
  }

  /** A store step, by a thread or by any other service. */
  lemma StoreSafe(w: World, step: I.Step)
    requires Safe(w)
    requires forall t :: t in w.threads ==> ReadsOwnCase(I.Next(w.sys, step).pending, t, w.threads[t])
    ensures Safe(w.(sys := I.Next(w.sys, step)))
  {
    hide I.Next, Q.QueueInvariant, Deploys, I.Sound, Evolves;
    var w' := w.(sys := I.Next(w.sys, step));
    I.SoundNext(w.sys, step);
    SystemEvolves(w.sys, step);
    DeploysKept(w, w');
    forall t | t in w'.threads ensures PhaseSound(w', w'.threads[t]) {
      PhaseKept(w, w', w.threads[t]);
    }
    forall id | id in w'.queue.jobs ensures OutcomeHolds(w', w'.queue.jobs[id].caseId, w'.queue.jobs[id].state) {
      OutcomeKept(w, w', w.queue.jobs[id].caseId, w.queue.jobs[id].state);
    }
  }

  lemma OutcomeKept(w: World, w': World, caseId: string, outcome: Q.JobState)
    requires I.Keyed(w.sys) && I.Keyed(w'.sys) && Evolves(w.sys, w'.sys) && OutcomeHolds(w, caseId, outcome)
    ensures OutcomeHolds(w', caseId, outcome)
  {
  }

  lemma OthersPending(s: I.System, step: I.Step, t: nat, phase: Phase)
    requires I.Keyed(s) && ReadsOwnCase(s.pending, t, phase)
    requires !(step.ReadStep? && step.worker == t)
    ensures ReadsOwnCase(I.Next(s, step).pending, t, phase)
  {
  }

  /** A queue operation that records no completion. */
  lemma QueueSafe(w: World, op: Q.Op)
    requires Safe(w) && !op.CompleteOp?
    ensures Safe(w.(queue := Q.Next(w.queue, op)))
  {
    hide Q.Next, Q.QueueInvariant, Deploys, I.Sound, Evolves;
    var w' := w.(queue := Q.Next(w.queue, op));
    Q.NextKeeps(w.queue, op);
    QueueKeyed(Q.Next(w.queue, op));
    QueuePersists(w.queue, op);
    SameEvolves(w.sys);
    DeploysKept(w, w');
    forall t | t in w'.threads ensures PhaseSound(w', w'.threads[t]) {
      PhaseKept(w, w', w.threads[t]);
    }
    forall id | id in w'.queue.jobs ensures OutcomeHolds(w', w'.queue.jobs[id].caseId, w'.queue.jobs[id].state) {
      StatesAfter(w.queue, op, id);
    }
  }

  lemma SameEvolves(s: I.System)
    requires I.Keyed(s)
    ensures Evolves(s, s)
  {
  }

  lemma QueueKeyed(q: Q.Queue)
    requires Q.QueueInvariant(q)
    ensures Q.Keyed(q.jobs)
  {
  }

  /** Moving one thread to a phase it is entitled to. */
  lemma MoveSafe(w: World, thread: nat, phase: Phase)
    requires Safe(w) && PhaseSound(w, phase) && ReadsOwnCase(w.sys.pending, thread, phase)
    requires phase.Deploying? ==>
               forall t :: AboutToDeploy(w, t) && t != thread ==> w.threads[t].job.caseId != phase.job.caseId
    ensures Safe(Move(w, thread, phase))
  {
    hide Q.QueueInvariant, Deploys, I.Sound;
    var w' := Move(w, thread, phase);
    forall t | t in w'.threads ensures PhaseSound(w', w'.threads[t]) {
      assert t != thread ==> PhaseSound(w, w.threads[t]);
    }
    forall t, u | AboutToDeploy(w', t) && AboutToDeploy(w', u) && w'.threads[t].job.caseId == w'.threads[u].job.caseId
      ensures t == u
    {
      assert t != thread ==> AboutToDeploy(w, t);
      assert u != thread ==> AboutToDeploy(w, u);
    }
    assert DeploysSound(w') by { assert w'.deploys == w.deploys && w'.sys == w.sys && w'.queue == w.queue; }
  }

  lemma RaiseSafe(w: World, thread: nat, job: Q.ExecutionJob)
    requires Safe(w) && JobClaimed(w, job)
    ensures Safe(Raise(w, thread, job))
  {
    hide Q.QueueInvariant, Deploys, I.Sound;
    MoveSafe(w, thread, Finishing(job, Q.Failed));
  }

  lemma PhaseFacts(w: World, t: nat)
    requires Safe(w)
    ensures PhaseSound(w, PhaseOf(w, t)) && ReadsOwnCase(w.sys.pending, t, PhaseOf(w, t))
  {
  }

  lemma ClaimSafe(w: World, a: Action)
    requires Safe(w) && a.Claim?
    ensures Safe(Act(w, a))
  {
    hide Q.QueueInvariant, Deploys, I.Sound;
    if PhaseOf(w, a.claimer).Idle? {
      var op := Q.ClaimOp(a.now, a.worker, a.leaseSeconds);
      QueueSafe(w, op);
      var after := w.(queue := Q.Next(w.queue, op));
      var claimed := Q.Claim(w.queue.jobs, a.now, a.worker, a.leaseSeconds).1;
      if a.worker != "" && a.leaseSeconds > 0 && claimed.Some? {
        ClaimedRow(w.queue, op);
        MoveSafe(after, a.claimer, Holding(claimed.value));
      }
    }
  }

  lemma ClaimedRow(q: Q.Queue, op: Q.Op)
    requires Q.Keyed(q.jobs) && op.ClaimOp? && op.worker != "" && op.leaseSeconds > 0
    requires Q.Claim(q.jobs, op.now, op.worker, op.leaseSeconds).1.Some?
    ensures var job := Q.Claim(q.jobs, op.now, op.worker, op.leaseSeconds).1.value;
            var jobs := Q.Next(q, op).jobs;
            && job.jobId in jobs && jobs[job.jobId] == job && job.attempts > 0
            && job.leaseOwner == op.worker && job.executeAt <= op.now < job.deadline
  {
  }

  lemma BeginSafe(w: World, a: Action)
    requires Safe(w) && a.Begin?
    ensures Safe(Act(w, a))
  {
    hide Q.QueueInvariant, Deploys, I.Sound, Safe;
    var phase := PhaseOf(w, a.thread);
    PhaseFacts(w, a.thread);
    if Pursues(phase, a.goal) && a.request.transition == TransitionOf(a.goal) {
      RaiseSafe(w, a.thread, phase.job);
      MoveSafe(w, a.thread, Advancing(phase.job, a.goal, a.request, false));
    }
  }

  lemma ReadSafe(w: World, a: Action)
    requires Safe(w) && a.Read?
    ensures Safe(Act(w, a))
  {
    hide Q.QueueInvariant, Deploys, Starts, Produced;
    var t := a.reader;
    var phase := PhaseOf(w, t);
    if phase.Advancing? && !phase.read {
      PhaseFacts(w, t);
      RaiseSafe(w, t, phase.job);
      if phase.job.caseId in w.sys.table.cases {
        var step := I.ReadStep(t, phase.job.caseId);
        forall u | u in w.threads ensures ReadsOwnCase(I.Next(w.sys, step).pending, u, w.threads[u]) {
          if u != t { OthersPending(w.sys, step, u, w.threads[u]); }
        }
        StoreSafe(w, step);
        var after := w.(sys := I.Next(w.sys, step));
        PhaseFacts(after, t);
        MoveSafe(after, t, phase.(read := true));
      }
    }
  }

  /** What a stored transition of a thread establishes. */
  lemma GoalReached(w: World, t: nat)
    requires Safe(w)
    requires PhaseOf(w, t).Advancing? && PhaseOf(w, t).read
    requires I.Appended(w.sys, t, PhaseOf(w, t).request).Ok?
    ensures var phase := PhaseOf(w, t);
            var s' := I.Next(w.sys, I.AppendStep(t, phase.request));
            var id := phase.job.caseId;
            && (phase.goal.Start? ==> StartsOf(w.sys, id) == 0 && StartsOf(s', id) == 1)
            && (phase.goal.Finish? ==> InState(s', id, {Remediated}))
            && (phase.goal.Restored? ==> InState(s', id, {RolledBack}))
            && (phase.goal.RollBack? ==> InState(s', id, RECOVERY))
            && (phase.goal in {Contain, GiveUp} ==> InState(s', id, RECOVERY))
  {
    hide Q.QueueInvariant, Deploys, Starts, Produced, TransitionCase;
    var phase := PhaseOf(w, t);
    var step := I.AppendStep(t, phase.request);
    PhaseFacts(w, t);
    I.AppendedIsCurrent(w.sys, t, phase.request);
    var c := w.sys.pending[t];
    var (next, event, table) := I.Appended(w.sys, t, phase.request).value;
    TransitionFrame(c, phase.request);
    GoalState(c, phase.request, phase.goal);
    StartsExtend(w.sys.table.events[c.caseId], event);
    I.SoundNext(w.sys, step);
    StartsBounded(I.Next(w.sys, step), c.caseId);
    SystemEvolves(w.sys, step);
  }

  lemma GoalState(c: RemediationCase, r: Request, goal: Goal)
    requires TransitionCase(c, r).Ok? && r.transition == TransitionOf(goal)
    ensures var next := TransitionCase(c, r).value.0;
            && (goal.Finish? ==> next.Effective().Remediated?)
            && (goal.Restored? ==> next.Effective().RolledBack?)
            && (goal.RollBack? ==> next.Effective().RollingBack?)
  {
  }

  lemma AppendSafe(w: World, a: Action)
    requires Safe(w) && a.Append?
    ensures Safe(Act(w, a))
  {
    hide Q.QueueInvariant, Deploys, Starts, I.Sound, I.Next, I.Appended, InState, StartsOf;
    var t := a.appender;
    var phase := PhaseOf(w, t);
    if phase.Advancing? && phase.read {
      var step := I.AppendStep(t, phase.request);
      PhaseFacts(w, t);
      forall u | u in w.threads ensures ReadsOwnCase(I.Next(w.sys, step).pending, u, w.threads[u]) {
        OthersPending(w.sys, step, u, w.threads[u]);
      }
      StoreSafe(w, step);
      var after := w.(sys := I.Next(w.sys, step));
      if I.Appended(w.sys, t, phase.request).Ok? {
        GoalReached(w, t);
        if phase.goal.Start? { NotDeployedYet(w, phase.job.caseId); }
        MoveSafe(after, t, After(phase.job, phase.goal));
      } else {
        RaiseSafe(after, t, phase.job);
      }
    }
  }

  /** Before the start is stored, nobody has deployed or is about to. */
  lemma NotDeployedYet(w: World, id: string)
    requires Safe(w) && StartsOf(w.sys, id) == 0
    ensures id !in w.deploys
    ensures forall u :: AboutToDeploy(w, u) ==> w.threads[u].job.caseId != id
  {
    hide Q.QueueInvariant, Deploys, Starts, I.Sound;
    forall u | AboutToDeploy(w, u) ensures w.threads[u].job.caseId != id {
      assert PhaseSound(w, w.threads[u]);
    }
  }

  lemma {:induction false} CountAbsent(ids: seq<string>, id: string)
    ensures Deploys(ids, id) == 0 <==> id !in ids
  {
    if ids != [] {
      CountAbsent(ids[..|ids| - 1], id);
      assert ids == ids[..|ids| - 1] + [ids[|ids| - 1]];
    }
  }

  lemma CountExtend(ids: seq<string>, last: string, id: string)
    ensures Deploys(ids + [last], id) == Deploys(ids, id) + (if last == id then 1 else 0)
  {
    assert (ids + [last])[..|ids + [last]| - 1] == ids;
  }

  lemma DeploySafe(w: World, a: Action)
    requires Safe(w) && a.Deploy?
    ensures Safe(Act(w, a))
  {
    hide Q.QueueInvariant, Deploys, Starts, I.Sound, Evolves;
    var t := a.deployer;
    var phase := PhaseOf(w, t);
    if phase.Deploying? {
      var w', id := Act(w, a), phase.job.caseId;
      SameEvolves(w.sys);
      PhaseFacts(w, t);
      CountAbsent(w.deploys, id);
      forall u | u in w'.threads ensures PhaseSound(w', w'.threads[u]) {
        if u != t {
          assert AboutToDeploy(w, u) ==> AboutToDeploy(w, t) && w.threads[u].job.caseId != id;
          PhaseKept(w, w', w.threads[u]);
        }
      }
      forall u, v | AboutToDeploy(w', u) && AboutToDeploy(w', v) && w'.threads[u].job.caseId == w'.threads[v].job.caseId
        ensures u == v
      {
        assert AboutToDeploy(w, u) && AboutToDeploy(w, v);
      }
      forall other | other in w'.deploys
        ensures Deploys(w'.deploys, other) == 1 && StartsOf(w'.sys, other) == 1
        ensures exists jobId :: jobId in w'.queue.jobs && w'.queue.jobs[jobId].caseId == other && w'.queue.jobs[jobId].attempts > 0
      {
        CountExtend(w.deploys, id, other);
        if other == id { assert JobClaimed(w, phase.job); }
      }
    }
  }

  lemma CompleteSafe(w: World, a: Action)
    requires Safe(w) && a.Complete?
    ensures Safe(Act(w, a))
  {
    hide Q.QueueInvariant, Deploys, Starts, I.Sound, Evolves, Q.Next;
    var t := a.completer;
    var phase := PhaseOf(w, t);
    PhaseFacts(w, t);
    if phase.Finishing? {
      if Q.Holds(w.queue.jobs, phase.job.jobId, phase.job.leaseOwner) {
        var op := Q.CompleteOp(phase.job.jobId, phase.job.leaseOwner, phase.outcome, a.detail);
        var after := w.(queue := Q.Next(w.queue, op));
        Q.NextKeeps(w.queue, op);
        QueueKeyed(Q.Next(w.queue, op));
        QueuePersists(w.queue, op);
        SameEvolves(w.sys);
        DeploysKept(w, after);
        forall u | u in after.threads ensures PhaseSound(after, after.threads[u]) {
          PhaseKept(w, after, w.threads[u]);
        }
        forall id | id in after.queue.jobs
          ensures OutcomeHolds(after, after.queue.jobs[id].caseId, after.queue.jobs[id].state)
        {
          StatesAfter(w.queue, op, id);
        }
        MoveSafe(after, t, Idle);
      } else {
        MoveSafe(w, t, Idle);
        RaiseSafe(w, t, phase.job);
      }
    }
  }

  lemma OtherSafe(w: World, a: Action)
    requires Safe(w) && a.Other?
    ensures Safe(Act(w, a))
  {
    hide Q.QueueInvariant, Deploys, Starts, I.Sound, I.Next;
    if !(a.step.AppendStep? && a.step.author in w.threads) && !(a.step.ReadStep? && a.step.worker in w.threads) {
      forall u | u in w.threads ensures ReadsOwnCase(I.Next(w.sys, a.step).pending, u, w.threads[u]) {
        OthersPending(w.sys, a.step, u, w.threads[u]);
      }
      StoreSafe(w, a.step);
    }
  }

  lemma ActSafe(w: World, a: Action)
    requires Safe(w)
    ensures Safe(Act(w, a))
  {
    match a
    case Other(_) => OtherSafe(w, a);
    case Put(id, caseId, executeAt, deadline) => QueueSafe(w, Q.PutOp(id, caseId, executeAt, deadline));
    case Claim(_, _, _, _) => ClaimSafe(w, a);
    case Begin(_, _, _, _) => BeginSafe(w, a);
    case Read(_) => ReadSafe(w, a);
    case Append(_) => AppendSafe(w, a);
    case Deploy(_) => DeploySafe(w, a);
    case Complete(_, _) => CompleteSafe(w, a);
    case Crash(thread) => MoveSafe(w, thread, Idle);
  }

  lemma {:induction false} AlwaysSafe(actions: seq<Action>)
    ensures Safe(Execute(actions))
  {
    hide Act, Safe;
    if actions == [] {
      NothingYetSafe();
    } else {
      AlwaysSafe(actions[..|actions| - 1]);
      ActSafe(Execute(actions[..|actions| - 1]), actions[|actions| - 1]);
    }
  }

  lemma NothingYetSafe()
    ensures Safe(World(I.EMPTY, Q.Queue(map[], []), map[], []))
  {
  }

  // ----- The theorems -----

  /** The execution interval of the case's job elapsed before anyone claimed it. */
  predicate MissedFor(jobs: Q.Jobs, id: string) {
    exists jobId :: jobId in jobs && jobs[jobId].caseId == id && jobs[jobId].state.Missed?
  }

  /**
   * In every interleaving a case is deployed at most once, only after its one start of execution
   * is stored, and never when its job was missed.
   */
  lemma DeployAtMostOnce(actions: seq<Action>, id: string)
    ensures var w := Execute(actions);
            && Deploys(w.deploys, id) <= 1
            && Deploys(w.deploys, id) <= StartsOf(w.sys, id) <= 1
            && (MissedFor(w.queue.jobs, id) ==> Deploys(w.deploys, id) == 0)
  {
    AlwaysSafe(actions);
    var w := Execute(actions);
    StartsBounded(w.sys, id);
    CountAbsent(w.deploys, id);
    if MissedFor(w.queue.jobs, id) {
      var jobId :| jobId in w.queue.jobs && w.queue.jobs[jobId].caseId == id && w.queue.jobs[jobId].state.Missed?;
      assert Q.RowMatches(w.queue.jobs[jobId], w.queue.history);
    }
  }

  /** What the queue records about a job agrees with the case, and goes on agreeing. */
  lemma RecordedOutcomeHolds(actions: seq<Action>, jobId: string)
    requires jobId in Execute(actions).queue.jobs
    ensures var w := Execute(actions);
            var job := w.queue.jobs[jobId];
            && (job.state.Succeeded? ==> InState(w.sys, job.caseId, {Remediated}))
            && (job.state.RolledBack? ==> InState(w.sys, job.caseId, {RolledBack}))
            && (job.state.Contained? ==> InState(w.sys, job.caseId, RECOVERY))
  {
    AlwaysSafe(actions);
  }
}
