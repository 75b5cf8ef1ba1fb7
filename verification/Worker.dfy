/** One turn of a scheduled worker: claim a due job, execute it, record the outcome. */
module Worker {
  import opened Common
  import opened Cases
  import opened Workflow
  import opened Execution
  import Q = Scheduler
  import Timestamps

  /** The four outcomes of a claimed job, one for each way a run can end. */
  lemma RecordedTells(result: Result<Outcome, ActionError>)
    ensures Recorded(result).Failed? <==> result.Err?
    ensures Recorded(result).Contained? <==> result.Ok? && result.value.contained
    ensures Recorded(result).RolledBack? <==> result.Ok? && !result.value.contained && result.value.rolledBack
    ensures Recorded(result).Succeeded? <==> result.Ok? && !result.value.contained && !result.value.rolledBack
  {
  }

  /** The job state recorded for what `execute` returned or raised. */
  function Recorded(result: Result<Outcome, ActionError>): Q.JobState {
    match result
    case Err(_) => Q.Failed
    case Ok(outcome) => if outcome.contained then Q.Contained else if outcome.rolledBack then Q.RolledBack else Q.Succeeded
  }

  class ScheduledExecutionWorker<W, C> {
    const jobStore: Q.SqliteExecutionJobStore
    const service: ExecutionService<W, C>
    const workerId: string

    constructor (jobStore: Q.SqliteExecutionJobStore, service: ExecutionService<W, C>, workerId: string)
      ensures this.jobStore == jobStore && this.service == service && this.workerId == workerId
    {
      this.jobStore, this.service, this.workerId := jobStore, service, workerId;
    }

    /**
     * With no other writer: the recorded outcome names the state the case ended in, and a job
     * whose execution was refused or not recovered is recorded as failed.
     */
    method RunOnce(originator: string, package: Package, execution: string, at: Timestamps.Stamp)
      returns (dispatched: Option<Q.ExecutionJob>, result: Result<Outcome, ActionError>)
      requires jobStore.Valid() && service.Valid() && workerId != "" && execution != "" && Timestamps.Valid(at)
      requires "" !in service.store.cases
      modifies jobStore, service, service.store
      ensures jobStore.Valid() && service.Valid()
      ensures var (jobs, claimed) := Q.Claim(old(jobStore.jobs), Timestamps.Instant(at), workerId, 300);
              match claimed
              case None => dispatched.None? && jobStore.jobs == jobs && service.store.Contents() == old(service.store.Contents())
              case Some(job) =>
                && dispatched.Some?
                && dispatched.value.jobId == job.jobId
                && jobStore.jobs == jobs[job.jobId := dispatched.value]
                && (dispatched.value.state == Q.Failed <==> result.Err?)
                && (dispatched.value.state == Q.Contained <==> result.Ok? && result.value.contained)
                && (dispatched.value.state == Q.RolledBack <==> result.Ok? && result.value.rolledBack)
                && (dispatched.value.attempts, dispatched.value.leaseOwner, dispatched.value.leaseUntil) == (job.attempts, "", None)
                && (result.Ok? ==> job.caseId in service.store.cases
                                   && result.value.finalCase == service.store.cases[job.caseId])
                && (dispatched.value.state == Q.Failed || job.caseId in service.store.cases)
                && (dispatched.value.state == Q.Succeeded ==> service.store.cases[job.caseId].state.Remediated?)
                && (dispatched.value.state == Q.RolledBack ==> service.store.cases[job.caseId].state.RolledBack?)
                && (dispatched.value.state == Q.Contained ==>
                      service.store.cases[job.caseId].state.Blocked? &&
                      service.store.cases[job.caseId].blockedFrom == Some(RollingBack))
                && (job.caseId in service.store.cases && old(service.store.cases) != service.store.cases ==>
                      (service.store.cases[job.caseId].state.Remediated? <==> dispatched.value.state == Q.Succeeded)
                      && (service.store.cases[job.caseId].state.RolledBack? <==> dispatched.value.state == Q.RolledBack))
    {
      var due := jobStore.ClaimDue(Timestamps.Instant(at), workerId, 300);
      result := Err(NotReleased);
      if due.value.None? { return None, result; }
      var job := due.value.value;
      if job.caseId in service.store.cases {
        result := service.Execute(job.caseId, originator, job.jobId, package, execution, at);
      }
      var completed := jobStore.Complete(job.jobId, workerId, Recorded(result), "");
      dispatched := Some(completed.value);
    }
  }
}
