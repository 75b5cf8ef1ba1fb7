/** The leased execution-job queue of scheduler.py, on the SQLite table. */
module Scheduler {
  import opened Common
  import TextOrder

  datatype JobState = Scheduled | Running | Succeeded | RolledBack | Contained | Failed | Missed

  /** Times are instants; `leaseUntil` is `None` for the empty text. */
  datatype ExecutionJob = ExecutionJob(
    jobId: string, caseId: string, executeAt: int, deadline: int, state: JobState,
    attempts: nat, leaseOwner: string, leaseUntil: Option<int>, detail: string)

  datatype QueueError = BadArguments | AlreadyScheduled | NotLeased

  type Jobs = map<string, ExecutionJob>

  const MISSED_DETAIL := "approved window elapsed before execution"

  predicate Completion(s: JobState) { s in {Succeeded, RolledBack, Contained, Failed} }

  predicate Eligible(job: ExecutionJob, now: int) {
    && job.executeAt <= now < job.deadline
    && (job.state.Scheduled? || (job.state.Running? && (job.leaseUntil.None? || job.leaseUntil.value <= now)))
  }

  /** The order in which due jobs are dispatched. */
  predicate Precedes(a: ExecutionJob, b: ExecutionJob) {
    a.executeAt < b.executeAt || (a.executeAt == b.executeAt && TextOrder.AtMost(a.jobId, b.jobId))
  }

  lemma PrecedesTotal(a: ExecutionJob, b: ExecutionJob)
    ensures Precedes(a, b) || Precedes(b, a)
  {
    TextOrder.LessTotal(a.jobId, b.jobId);
  }

  lemma PrecedesTransitive(a: ExecutionJob, b: ExecutionJob, c: ExecutionJob)
    requires Precedes(a, b) && Precedes(b, c)
    ensures Precedes(a, c)
  {
    if TextOrder.Less(a.jobId, b.jobId) && TextOrder.Less(b.jobId, c.jobId) {
      TextOrder.LessTransitive(a.jobId, b.jobId, c.jobId);
    }
  }

  lemma PrecedesAntisymmetric(a: ExecutionJob, b: ExecutionJob)
    requires Precedes(a, b) && Precedes(b, a)
    ensures a.jobId == b.jobId
  {
    if a.jobId != b.jobId { TextOrder.LessAsymmetric(a.jobId, b.jobId); }
  }

  ghost predicate Keyed(jobs: Jobs) {
    forall id :: id in jobs ==> jobs[id].jobId == id
  }

  /** `id` is due and no other due job comes before it. */
  ghost predicate LeastDue(jobs: Jobs, now: int, id: string) {
    && id in jobs && Eligible(jobs[id], now)
    && forall other :: other in jobs && Eligible(jobs[other], now) ==> Precedes(jobs[id], jobs[other])
  }

  /** Scheduled jobs past their deadline are written off before anything is claimed. */
  function WithMissed(jobs: Jobs, now: int): Jobs {
    map id | id in jobs ::
      if jobs[id].state.Scheduled? && jobs[id].deadline <= now
      then jobs[id].(state := Missed, detail := MISSED_DETAIL)
      else jobs[id]
  }

  function Leased(job: ExecutionJob, worker: string, until: int): ExecutionJob {
    job.(state := Running, attempts := job.attempts + 1, leaseOwner := worker, leaseUntil := Some(until))
  }

  lemma LeastDueUnique(jobs: Jobs, now: int, one: string, two: string)
    requires Keyed(jobs) && LeastDue(jobs, now, one) && LeastDue(jobs, now, two)
    ensures one == two
  {
    PrecedesAntisymmetric(jobs[one], jobs[two]);
  }

  /** The queue after one claim, and the claimed job if any was due. */
  ghost function Claim(jobs: Jobs, now: int, worker: string, leaseSeconds: int): (Jobs, Option<ExecutionJob>) {
    var marked := WithMissed(jobs, now);
    if exists id :: LeastDue(marked, now, id) then
      var id :| LeastDue(marked, now, id);
      var job := Leased(marked[id], worker, now + leaseSeconds);
      (marked[id := job], Some(job))
    else (marked, None)
  }

  /** A due job is never passed over. */
  lemma DueIsClaimed(jobs: Jobs, now: int, worker: string, leaseSeconds: int)
    requires exists id :: id in jobs && Eligible(jobs[id], now)
    ensures Claim(jobs, now, worker, leaseSeconds).1.Some?
  {
    var marked := WithMissed(jobs, now);
    var id :| id in jobs && Eligible(jobs[id], now);
    assert Eligible(marked[id], now);
    assert id in marked;
    var due := set other | other in marked && Eligible(marked[other], now);
    assert id in due;
    var least := LeastOf(marked, due);
    assert LeastDue(marked, now, least);
  }

  lemma {:induction false} LeastOf(jobs: Jobs, ids: set<string>) returns (least: string)
    requires ids != {} && ids <= jobs.Keys
    ensures least in ids && forall id :: id in ids ==> Precedes(jobs[least], jobs[id])
    decreases |ids|
  {
    var id :| id in ids;
    PrecedesTotal(jobs[id], jobs[id]);
    least := id;
    if ids != {id} {
      var other := LeastOf(jobs, ids - {id});
      PrecedesTotal(jobs[id], jobs[other]);
      if Precedes(jobs[id], jobs[other]) {
        forall k | k in ids - {id} ensures Precedes(jobs[id], jobs[k]) {
          PrecedesTransitive(jobs[id], jobs[other], jobs[k]);
        }
      } else {
        least := other;
      }
    }
  }

  /** Nobody works on the job: it is waiting, or the lease of its worker has run out. */
  predicate Free(job: ExecutionJob, now: int) {
    job.state == Scheduled || (job.state == Running && !(job.leaseUntil.Some? && now < job.leaseUntil.value))
  }

  /** What a claim takes, written out: a free job inside its window, the earliest of them, and by id among equals.  A job
      of a crashed worker is taken again once its lease is over, and one under a live lease never is. */
  lemma ClaimTakes(jobs: Jobs, now: int, worker: string, leaseSeconds: int)
    requires Keyed(jobs)
    ensures var claimed := Claim(jobs, now, worker, leaseSeconds).1;
            && (claimed.Some? <==>
                  exists id :: id in jobs && jobs[id].executeAt <= now < jobs[id].deadline && Free(jobs[id], now))
            && (claimed.Some? ==>
                  && claimed.value.jobId in jobs
                  && var was := jobs[claimed.value.jobId];
                  && was.executeAt <= now < was.deadline && Free(was, now)
                  && forall id :: id in jobs && jobs[id].executeAt <= now < jobs[id].deadline && Free(jobs[id], now) ==>
                       || was.executeAt < jobs[id].executeAt
                       || (was.executeAt == jobs[id].executeAt && (was.jobId == id || TextOrder.Less(was.jobId, id))))
  {
    var marked := WithMissed(jobs, now);
    forall id | id in jobs
      ensures Eligible(marked[id], now) <==> jobs[id].executeAt <= now < jobs[id].deadline && Free(jobs[id], now)
      ensures Eligible(marked[id], now) ==> Eligible(jobs[id], now) && marked[id] == jobs[id]
    {
    }
    if exists id :: LeastDue(marked, now, id) {
      var id :| LeastDue(marked, now, id) && Claim(jobs, now, worker, leaseSeconds)
        == (marked[id := Leased(marked[id], worker, now + leaseSeconds)], Some(Leased(marked[id], worker, now + leaseSeconds)));
      assert marked[id] == jobs[id];
    } else if exists id :: id in jobs && Eligible(jobs[id], now) {
      DueIsClaimed(jobs, now, worker, leaseSeconds);
    }
  }

  /** What a claim makes of each row: the claimed one is leased, a waiting one past its deadline is written off, and no
      other changes. */
  lemma ClaimLeaves(jobs: Jobs, now: int, worker: string, leaseSeconds: int, id: string)
    requires Keyed(jobs) && id in jobs
    ensures var (after, claimed) := Claim(jobs, now, worker, leaseSeconds);
            && after.Keys == jobs.Keys
            && var was, row := jobs[id], after[id];
            && (row.jobId, row.caseId, row.executeAt, row.deadline) == (id, was.caseId, was.executeAt, was.deadline)
            && if claimed.Some? && claimed.value.jobId == id then
                 && row == claimed.value && row.detail == was.detail
                 && row.state == Running && row.attempts == was.attempts + 1
                 && row.leaseOwner == worker && row.leaseUntil == Some(now + leaseSeconds)
               else if was.state == Scheduled && was.deadline <= now then
                 && row.state == Missed
                 && (row.attempts, row.leaseOwner, row.leaseUntil) == (was.attempts, was.leaseOwner, was.leaseUntil)
               else row == was
  {
    var marked := WithMissed(jobs, now);
    if exists least :: LeastDue(marked, now, least) {
      var least :| LeastDue(marked, now, least) && Claim(jobs, now, worker, leaseSeconds)
        == (marked[least := Leased(marked[least], worker, now + leaseSeconds)],
            Some(Leased(marked[least], worker, now + leaseSeconds)));
      assert marked[least] == jobs[least];
    }
  }

  predicate Holds(jobs: Jobs, jobId: string, worker: string) {
    jobId in jobs && jobs[jobId].state.Running? && jobs[jobId].leaseOwner == worker
  }

  function Finished(job: ExecutionJob, state: JobState, detail: string): ExecutionJob {
    job.(state := state, detail := detail, leaseOwner := "", leaseUntil := None)
  }

  class SqliteExecutionJobStore {
    var jobs: Jobs

    ghost predicate Valid() reads this { Keyed(jobs) }

    constructor ()
      ensures Valid() && jobs == map[]
    {
      jobs := map[];
    }

    /** One job per case, and job ids are unique. */
    method Put(job: ExecutionJob) returns (r: Result<(), QueueError>)
      requires Valid()
      modifies this
      ensures Valid()
      ensures r.Ok? <==> job.jobId !in old(jobs) && forall id :: id in old(jobs) ==> old(jobs)[id].caseId != job.caseId
      ensures jobs == if r.Ok? then old(jobs)[job.jobId := job] else old(jobs)
    {
      if job.jobId in jobs || exists id :: id in jobs && jobs[id].caseId == job.caseId {
        return Err(AlreadyScheduled);
      }
      jobs := jobs[job.jobId := job];
      return Ok(());
    }

    method ClaimDue(now: int, worker: string, leaseSeconds: int) returns (r: Result<Option<ExecutionJob>, QueueError>)
      requires Valid()
      modifies this
      ensures Valid()
      ensures r.Err? <==> worker == "" || leaseSeconds <= 0
      ensures r.Err? ==> jobs == old(jobs)
      ensures r.Ok? ==> (jobs, r.value) == Claim(old(jobs), now, worker, leaseSeconds)
    {
      if worker == "" || leaseSeconds <= 0 { return Err(BadArguments); }
      jobs := WithMissed(jobs, now);
      var best: Option<string> := None;
      var rest := jobs.Keys;
      while rest != {}
        invariant jobs == WithMissed(old(jobs), now) && Keyed(jobs) && rest <= jobs.Keys
        invariant best.Some? ==> best.value in jobs && Eligible(jobs[best.value], now)
        invariant forall id :: id in jobs && id !in rest && Eligible(jobs[id], now) ==>
          best.Some? && Precedes(jobs[best.value], jobs[id])
        decreases |rest|
      {
        var id :| id in rest;
        rest := rest - {id};
        if Eligible(jobs[id], now) {
          PrecedesTotal(jobs[id], jobs[id]);
          if best.None? {
            best := Some(id);
          } else {
            PrecedesTotal(jobs[id], jobs[best.value]);
            if !Precedes(jobs[best.value], jobs[id]) {
              forall other | other in jobs && Precedes(jobs[best.value], jobs[other])
                ensures Precedes(jobs[id], jobs[other])
              {
                PrecedesTransitive(jobs[id], jobs[best.value], jobs[other]);
              }
              best := Some(id);
            }
          }
        }
      }
      if best.None? { return Ok(None); }
      assert LeastDue(jobs, now, best.value);
      forall id | LeastDue(jobs, now, id) ensures id == best.value {
        LeastDueUnique(jobs, now, id, best.value);
      }
      jobs := jobs[best.value := Leased(jobs[best.value], worker, now + leaseSeconds)];
      return Ok(Some(jobs[best.value]));
    }

    method Complete(jobId: string, worker: string, state: JobState, detail: string)
      returns (r: Result<ExecutionJob, QueueError>)
      requires Valid()
      modifies this
      ensures Valid()
      ensures r.Ok? <==> Completion(state) && Holds(old(jobs), jobId, worker)
      ensures r.Ok? ==> r.value == Finished(old(jobs)[jobId], state, detail) && jobs == old(jobs)[jobId := r.value]
      ensures r.Ok? ==>
                && state in {Succeeded, RolledBack, Contained, Failed}
                && old(jobs)[jobId].state == Running && old(jobs)[jobId].leaseOwner == worker
                && r.value.state == state && r.value.detail == detail && r.value.leaseOwner == "" && r.value.leaseUntil.None?
                && r.value.caseId == old(jobs)[jobId].caseId && r.value.attempts == old(jobs)[jobId].attempts
      ensures r.Err? ==> jobs == old(jobs)
    {
      if !Completion(state) { return Err(BadArguments); }
      if !Holds(jobs, jobId, worker) { return Err(NotLeased); }
      jobs := jobs[jobId := Finished(jobs[jobId], state, detail)];
      return Ok(jobs[jobId]);
    }
  }

  // ----- Whole histories of the queue -----

  datatype Entry =
    | Claimed(jobId: string, worker: string, at: int, until: int)
    | Completed(jobId: string, worker: string, state: JobState)

  datatype Op =
    | PutOp(id: string, caseId: string, executeAt: int, deadline: int)
    | ClaimOp(now: int, worker: string, leaseSeconds: int)
    | CompleteOp(jobId: string, owner: string, state: JobState, detail: string)

  /** The stored rows, and what has been claimed and completed so far. */
  datatype Queue = Queue(jobs: Jobs, history: seq<Entry>)

  function NewJob(id: string, caseId: string, executeAt: int, deadline: int): ExecutionJob {
    ExecutionJob(id, caseId, executeAt, deadline, Scheduled, 0, "", None, "")
  }

  /** One operation; an operation that raises changes nothing. */
  ghost function Next(q: Queue, op: Op): Queue {
    match op
    case PutOp(id, caseId, executeAt, deadline) =>
      if id in q.jobs || exists other :: other in q.jobs && q.jobs[other].caseId == caseId then q
      else q.(jobs := q.jobs[id := NewJob(id, caseId, executeAt, deadline)])
    case ClaimOp(now, worker, leaseSeconds) =>
      if worker == "" || leaseSeconds <= 0 then q
      else
        var (jobs, claimed) := Claim(q.jobs, now, worker, leaseSeconds);
        if claimed.None? then q.(jobs := jobs)
        else Queue(jobs, q.history + [Claimed(claimed.value.jobId, worker, now, now + leaseSeconds)])
    case CompleteOp(jobId, owner, state, detail) =>
      if !Completion(state) || !Holds(q.jobs, jobId, owner) then q
      else Queue(q.jobs[jobId := Finished(q.jobs[jobId], state, detail)],
                 q.history + [Completed(jobId, owner, state)])
  }

  ghost function Execute(ops: seq<Op>): Queue {
    if ops == [] then Queue(map[], []) else Next(Execute(ops[..|ops| - 1]), ops[|ops| - 1])
  }

  function ClaimCount(history: seq<Entry>, jobId: string): nat {
    if history == [] then 0
    else
      var last := history[|history| - 1];
      ClaimCount(history[..|history| - 1], jobId) + (if last.Claimed? && last.jobId == jobId then 1 else 0)
  }

  ghost predicate ClaimOf(history: seq<Entry>, i: int, jobId: string) {
    0 <= i < |history| && history[i].Claimed? && history[i].jobId == jobId
  }

  /** The claim of a job that no later claim of it supersedes. */
  ghost predicate LastClaim(history: seq<Entry>, i: int, jobId: string) {
    ClaimOf(history, i, jobId) && forall k :: i < k < |history| ==> !ClaimOf(history, k, jobId)
  }

  ghost predicate CompletionOf(history: seq<Entry>, m: int, jobId: string) {
    0 <= m < |history| && history[m].Completed? && history[m].jobId == jobId
  }

  /** Every claim was made inside the execution interval of its job. */
  ghost predicate ClaimedInTime(jobs: Jobs, history: seq<Entry>) {
    forall i, jobId :: ClaimOf(history, i, jobId) ==>
      jobId in jobs && jobs[jobId].executeAt <= history[i].at < jobs[jobId].deadline
  }

  /** Leases on one job never overlap: the earlier one had run out when the later one began. */
  ghost predicate LeasesDisjoint(history: seq<Entry>) {
    forall i, k, jobId :: ClaimOf(history, i, jobId) && ClaimOf(history, k, jobId) && i < k ==>
      history[i].at < history[i].until <= history[k].at
  }

  /** Only the latest claimer completes, and nothing happens to a completed job. */
  ghost predicate CompletedByLast(history: seq<Entry>) {
    forall m, jobId :: CompletionOf(history, m, jobId) ==>
      && (exists i :: i < m && LastClaim(history, i, jobId) && history[i].worker == history[m].worker)
      && (forall k :: CompletionOf(history, k, jobId) ==> k == m)
  }

  /** How the stored row of a job reflects its history. */
  ghost predicate RowMatches(job: ExecutionJob, history: seq<Entry>) {
    && job.attempts == ClaimCount(history, job.jobId)
    && (job.state in {Scheduled, Missed} <==> job.attempts == 0)
    && (job.state in {Scheduled, Missed} <==> forall i :: !ClaimOf(history, i, job.jobId))
    && (job.state.Running? ==>
          && (forall m :: !CompletionOf(history, m, job.jobId))
          && job.leaseUntil.Some?
          && exists i :: LastClaim(history, i, job.jobId) && history[i].worker == job.leaseOwner
                         && history[i].until == job.leaseUntil.value && history[i].at < history[i].until)
    && (forall m :: CompletionOf(history, m, job.jobId) ==> job.state == history[m].state && Completion(job.state))
    && (Completion(job.state) ==> exists m :: CompletionOf(history, m, job.jobId))
  }

  ghost predicate QueueInvariant(q: Queue) {
    && Keyed(q.jobs)
    && (forall id, other :: id in q.jobs && other in q.jobs && q.jobs[id].caseId == q.jobs[other].caseId ==> id == other)
    && ClaimedInTime(q.jobs, q.history)
    && LeasesDisjoint(q.history)
    && CompletedByLast(q.history)
    && (forall i :: 0 <= i < |q.history| ==> q.history[i].jobId in q.jobs)
    && (forall id :: id in q.jobs ==> RowMatches(q.jobs[id], q.history))
  }

  lemma {:induction false} CountsClaims(history: seq<Entry>, jobId: string)
    ensures ClaimCount(history, jobId) == 0 <==> forall i :: !ClaimOf(history, i, jobId)
  {
    if history != [] {
      var shorter := history[..|history| - 1];
      CountsClaims(shorter, jobId);
      if ClaimOf(history, |history| - 1, jobId) {
      } else {
        forall i ensures ClaimOf(history, i, jobId) <==> ClaimOf(shorter, i, jobId) {}
      }
    }
  }

  /** An entry of one job says nothing about another. */
  lemma OtherRowsKeep(job: ExecutionJob, history: seq<Entry>, e: Entry)
    requires RowMatches(job, history) && e.jobId != job.jobId
    ensures RowMatches(job, history + [e])
  {
    var longer := history + [e];
    assert longer[..|longer| - 1] == history;
    forall i ensures ClaimOf(longer, i, job.jobId) <==> ClaimOf(history, i, job.jobId) {}
    forall i ensures CompletionOf(longer, i, job.jobId) <==> CompletionOf(history, i, job.jobId) {}
    if job.state.Running? {
      var i :| LastClaim(history, i, job.jobId) && history[i].worker == job.leaseOwner
               && history[i].until == job.leaseUntil.value && history[i].at < history[i].until;
      assert LastClaim(longer, i, job.jobId);
    }
  }

  lemma NewRowMatches(job: ExecutionJob, history: seq<Entry>)
    requires job.state.Scheduled? && job.attempts == 0
    requires forall i :: 0 <= i < |history| ==> history[i].jobId != job.jobId
    ensures RowMatches(job, history)
  {
    forall i ensures !ClaimOf(history, i, job.jobId) && !CompletionOf(history, i, job.jobId) {}
    CountsClaims(history, job.jobId);
  }

  lemma PutKeeps(q: Queue, op: Op)
    requires QueueInvariant(q) && op.PutOp?
    ensures QueueInvariant(Next(q, op))
  {
    hide LeasesDisjoint, CompletedByLast, RowMatches, ClaimCount;
    var q' := Next(q, op);
    if q' != q { NewRowMatches(q'.jobs[op.id], q.history); }
  }

  lemma MarkedRowMatches(job: ExecutionJob, history: seq<Entry>, detail: string)
    requires RowMatches(job, history) && job.state.Scheduled?
    ensures RowMatches(job.(state := Missed, detail := detail), history)
  {
  }

  lemma MissedKeeps(q: Queue, now: int)
    requires QueueInvariant(q)
    ensures QueueInvariant(q.(jobs := WithMissed(q.jobs, now)))
  {
    hide LeasesDisjoint, CompletedByLast, RowMatches, ClaimOf;
    var marked := WithMissed(q.jobs, now);
    forall id | id in marked ensures RowMatches(marked[id], q.history) {
      if marked[id] != q.jobs[id] { MarkedRowMatches(q.jobs[id], q.history, marked[id].detail); }
    }
  }

  /** The lease on an eligible job has run out by the time it is claimed again. */
  lemma EarlierLeasesOver(q: Queue, now: int, id: string, i: int)
    requires QueueInvariant(q) && id in q.jobs && Eligible(q.jobs[id], now) && ClaimOf(q.history, i, id)
    ensures q.history[i].at < q.history[i].until <= now
  {
    assert RowMatches(q.jobs[id], q.history);
    var job := q.jobs[id];
    var k :| LastClaim(q.history, k, id) && q.history[k].until == job.leaseUntil.value && q.history[k].at < q.history[k].until;
    if i != k { assert i < k; }
  }

  lemma EntriesAfter(history: seq<Entry>, e: Entry)
    ensures forall i, jobId :: ClaimOf(history + [e], i, jobId) <==>
              ClaimOf(history, i, jobId) || (i == |history| && e.Claimed? && e.jobId == jobId)
    ensures forall m, jobId :: CompletionOf(history + [e], m, jobId) <==>
              CompletionOf(history, m, jobId) || (m == |history| && e.Completed? && e.jobId == jobId)
  {
  }

  lemma LastClaimKept(history: seq<Entry>, e: Entry, i: int, jobId: string)
    requires LastClaim(history, i, jobId) && !(e.Claimed? && e.jobId == jobId)
    ensures LastClaim(history + [e], i, jobId)
  {
    EntriesAfter(history, e);
  }

  /** A claim made when every earlier lease on the job is over, of a job not completed. */
  lemma HistoryAfterClaim(history: seq<Entry>, e: Entry)
    requires LeasesDisjoint(history) && CompletedByLast(history) && e.Claimed?
    requires forall i :: ClaimOf(history, i, e.jobId) ==> history[i].at < history[i].until <= e.at
    requires forall m :: !CompletionOf(history, m, e.jobId)
    ensures LeasesDisjoint(history + [e]) && CompletedByLast(history + [e])
  {
    var longer := history + [e];
    EntriesAfter(history, e);
    forall m, jobId | CompletionOf(longer, m, jobId)
      ensures exists i :: i < m && LastClaim(longer, i, jobId) && longer[i].worker == longer[m].worker
      ensures forall k :: CompletionOf(longer, k, jobId) ==> k == m
    {
      assert CompletionOf(history, m, jobId);
      var i :| i < m && LastClaim(history, i, jobId) && history[i].worker == history[m].worker;
      LastClaimKept(history, e, i, jobId);
    }
  }

  /** A completion by the worker of the last claim, of a job not completed. */
  lemma HistoryAfterCompletion(history: seq<Entry>, e: Entry, last: int)
    requires LeasesDisjoint(history) && CompletedByLast(history) && e.Completed?
    requires LastClaim(history, last, e.jobId) && history[last].worker == e.worker
    requires forall m :: !CompletionOf(history, m, e.jobId)
    ensures LeasesDisjoint(history + [e]) && CompletedByLast(history + [e])
  {
    var longer := history + [e];
    EntriesAfter(history, e);
    forall m, jobId | CompletionOf(longer, m, jobId)
      ensures exists i :: i < m && LastClaim(longer, i, jobId) && longer[i].worker == longer[m].worker
      ensures forall k :: CompletionOf(longer, k, jobId) ==> k == m
    {
      if m == |history| {
        LastClaimKept(history, e, last, jobId);
      } else {
        assert CompletionOf(history, m, jobId);
        var i :| i < m && LastClaim(history, i, jobId) && history[i].worker == history[m].worker;
        LastClaimKept(history, e, i, jobId);
      }
    }
  }

  lemma ClaimKeeps(q: Queue, now: int, worker: string, leaseSeconds: int, id: string)
    requires QueueInvariant(q) && id in q.jobs && Eligible(q.jobs[id], now) && leaseSeconds > 0
    ensures QueueInvariant(Queue(q.jobs[id := Leased(q.jobs[id], worker, now + leaseSeconds)],
                                 q.history + [Claimed(id, worker, now, now + leaseSeconds)]))
  {
    hide LeasesDisjoint, CompletedByLast, RowMatches;
    var e := Claimed(id, worker, now, now + leaseSeconds);
    var longer, jobs' := q.history + [e], q.jobs[id := Leased(q.jobs[id], worker, now + leaseSeconds)];
    EntriesAfter(q.history, e);
    forall i | ClaimOf(q.history, i, id) ensures q.history[i].at < q.history[i].until <= now {
      EarlierLeasesOver(q, now, id, i);
    }
    RowAfterClaim(q.jobs[id], q.history, e);
    HistoryAfterClaim(q.history, e);
    forall other | other in jobs' ensures RowMatches(jobs'[other], longer) {
      if other != id { OtherRowsKeep(q.jobs[other], q.history, e); }
    }
  }

  lemma RowAfterClaim(job: ExecutionJob, history: seq<Entry>, e: Entry)
    requires RowMatches(job, history) && e.Claimed? && e.jobId == job.jobId && e.at < e.until
    requires job.state.Scheduled? || job.state.Running?
    ensures RowMatches(Leased(job, e.worker, e.until), history + [e])
    ensures forall m :: !CompletionOf(history, m, job.jobId)
  {
    var longer := history + [e];
    assert longer[..|history|] == history;
    EntriesAfter(history, e);
    assert ClaimOf(longer, |history|, job.jobId);
    assert LastClaim(longer, |history|, job.jobId);
  }

  lemma RowAfterCompletion(job: ExecutionJob, history: seq<Entry>, e: Entry, detail: string) returns (last: int)
    requires RowMatches(job, history) && e.Completed? && e.jobId == job.jobId && Completion(e.state)
    requires job.state.Running? && job.leaseOwner == e.worker
    ensures RowMatches(Finished(job, e.state, detail), history + [e])
    ensures LastClaim(history, last, job.jobId) && history[last].worker == e.worker
    ensures forall m :: !CompletionOf(history, m, job.jobId)
  {
    var longer := history + [e];
    assert longer[..|history|] == history;
    EntriesAfter(history, e);
    last :| LastClaim(history, last, job.jobId) && history[last].worker == job.leaseOwner;
    assert ClaimOf(longer, last, job.jobId);
    assert CompletionOf(longer, |history|, job.jobId);
  }

  lemma CompleteKeeps(q: Queue, op: Op)
    requires QueueInvariant(q) && op.CompleteOp?
    ensures QueueInvariant(Next(q, op))
  {
    hide LeasesDisjoint, CompletedByLast, RowMatches, ClaimCount;
    if Completion(op.state) && Holds(q.jobs, op.jobId, op.owner) {
      var q', e := Next(q, op), Completed(op.jobId, op.owner, op.state);
      EntriesAfter(q.history, e);
      var last := RowAfterCompletion(q.jobs[op.jobId], q.history, e, op.detail);
      HistoryAfterCompletion(q.history, e, last);
      forall other | other in q'.jobs ensures RowMatches(q'.jobs[other], q'.history) {
        if other != op.jobId { OtherRowsKeep(q.jobs[other], q.history, e); }
      }
    }
  }

  lemma ClaimOpKeeps(q: Queue, op: Op)
    requires QueueInvariant(q) && op.ClaimOp? && op.worker != "" && op.leaseSeconds > 0
    ensures QueueInvariant(Next(q, op))
  {
    hide QueueInvariant, WithMissed;
    var marked := WithMissed(q.jobs, op.now);
    MissedKeeps(q, op.now);
    if exists id :: LeastDue(marked, op.now, id) {
      var id :| LeastDue(marked, op.now, id) && Claim(q.jobs, op.now, op.worker, op.leaseSeconds)
        == (marked[id := Leased(marked[id], op.worker, op.now + op.leaseSeconds)],
            Some(Leased(marked[id], op.worker, op.now + op.leaseSeconds)));
      assert marked[id].jobId == id by { MissedKeyed(q, op.now, id); }
      ClaimKeeps(q.(jobs := marked), op.now, op.worker, op.leaseSeconds, id);
    }
  }

  lemma MissedKeyed(q: Queue, now: int, id: string)
    requires QueueInvariant(q.(jobs := WithMissed(q.jobs, now))) && id in WithMissed(q.jobs, now)
    ensures WithMissed(q.jobs, now)[id].jobId == id
  {
  }

  lemma NextKeeps(q: Queue, op: Op)
    requires QueueInvariant(q)
    ensures QueueInvariant(Next(q, op))
  {
    hide QueueInvariant;
    match op
    case PutOp(_, _, _, _) => PutKeeps(q, op);
    case CompleteOp(_, _, _, _) => CompleteKeeps(q, op);
    case ClaimOp(_, worker, leaseSeconds) => if worker != "" && leaseSeconds > 0 { ClaimOpKeeps(q, op); }
  }

  /** The lease protocol, over every sequence of puts, claims and completions. */
  lemma {:induction false} LeaseProtocol(ops: seq<Op>)
    ensures QueueInvariant(Execute(ops))
  {
    if ops != [] {
      LeaseProtocol(ops[..|ops| - 1]);
      NextKeeps(Execute(ops[..|ops| - 1]), ops[|ops| - 1]);
    }
  }

  /** A completed or missed job never changes again. */
  lemma FinalAbsorbs(q: Queue, op: Op, id: string)
    requires QueueInvariant(q) && id in q.jobs && (Completion(q.jobs[id].state) || q.jobs[id].state.Missed?)
    ensures id in Next(q, op).jobs && Next(q, op).jobs[id] == q.jobs[id]
  {
    hide LeasesDisjoint, CompletedByLast, RowMatches, ClaimedInTime;
  }
}
