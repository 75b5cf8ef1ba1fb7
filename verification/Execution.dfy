/** `ExecutionService.execute`: deploy an approved change, verify it, or restore the checkpoint. */
module Execution {
  import opened Common
  import opened Cases
  import opened CaseLog
  import opened Ranking
  import opened Workflow
  import Timestamps

  /** A call into a driver, monitor, probe or agent runtime: it returns, or it raises. */
  datatype Attempt<+T> = Returned(value: T) | Raised(detail: string)

  /** `restored` and `contained` are the optional entries of a rollback payload. */
  datatype ActionStep = ActionStep(passed: bool, detail: string, restored: Option<bool>, contained: bool)

  datatype Health = Health(healthy: bool, reasons: seq<string>)

  datatype Observation = Baseline | AfterDeploy | AfterRollback

  /** The evidence one execution writes before the audit. */
  datatype Evidence = Preflight(execution: string) | Deployment(execution: string) | Probes(execution: string)

  datatype Decision = Accept | RequestRollback | NeedsHumanContext

  /** `valid` stands for the contract checks on the auditor's output other than the ones modelled. */
  datatype Audit = Audit(valid: bool, succeeded: bool, cited: set<Evidence>, decision: Decision,
                         validatedOutcomes: seq<string>, summary: string)

  /** A driver bound to one approved change; `W` is what it acts on, `C` its checkpoint payload. */
  datatype Driver<!W, !C> = Driver(
    preflight: W -> Attempt<ActionStep>,
    checkpoint: W -> Attempt<C>,
    deploy: (W, C) -> (W, Attempt<ActionStep>),
    rollback: (W, C) -> (W, Attempt<ActionStep>))

  /** Everything else the execution consults. */
  datatype Environment<!W> = Environment(
    observe: (Observation, W) -> Attempt<Health>,
    probes: seq<W -> Attempt<bool>>,
    audit: (W, set<Evidence>) -> Attempt<Audit>)

  datatype Call = DeployCall | RollbackCall

  datatype RecordType =
    | ExecutionStart | ExecutionResult | RollbackExecution | RollbackVerification
    | PostChangeVerification | RemediationCertificate(findingIds: seq<string>) | OriginatorHandoff

  datatype ProductRecord = ProductRecord(recordId: string, caseId: string, kind: RecordType)

  datatype Outcome = Outcome(finalCase: RemediationCase, rolledBack: bool, contained: bool)

  datatype ActionError = NotReleased | NotPrepared | NotRestored

  function Passed(step: Attempt<ActionStep>): bool { step.Returned? && step.value.passed }

  function Healthy(h: Attempt<Health>): bool { h.Returned? && h.value.healthy }

  function EvidenceOf(execution: string): set<Evidence> {
    {Preflight(execution), Deployment(execution), Probes(execution)}
  }

  // ----- What the run depends on -----

  /** The finding scope of an approved plan; `Malformed` is anything but an object with a list of texts. */
  datatype Scope = NoScope | Malformed | Findings(ids: seq<string>)

  /** The records behind the approved case: the case each belongs to, the plan's scope, and the approval's expiry. */
  datatype Package = Package(owners: map<RecordKey, string>, scope: Scope, expiresAt: int)

  /** `_approved_finding_ids`: the findings the plan was approved for, or the refusal of its scope. */
  function ApprovedFindingIds(scope: Scope, known: seq<string>): (ids: Option<seq<string>>)
    ensures ids.Some? ==> forall id :: id in ids.value ==> id in known
    ensures ids.Some? && !scope.NoScope? ==> ids.value != [] && "" !in ids.value && Distinct(ids.value)
  {
    match scope
    case NoScope => Some(known)
    case Malformed => None
    case Findings(ids) =>
      if ids == [] || "" in ids || !Distinct(ids) || exists id :: id in ids && id !in known then None else Some(ids)
  }

  /** A list that names findings of the case, at least one, each once. */
  predicate ApprovedScope(ids: seq<string>, known: seq<string>) {
    && |ids| > 0
    && (forall i, j :: 0 <= i < j < |ids| ==> ids[i] != ids[j])
    && (forall i :: 0 <= i < |ids| ==> ids[i] != "" && ids[i] in known)
  }

  /** A plan without a scope is approved for every finding of the case; one with a scope for exactly the findings it lists,
      in its order, and only if the list is a good one. */
  lemma ApprovedExactly(scope: Scope, known: seq<string>)
    ensures ApprovedFindingIds(scope, known) ==
            match scope
            case NoScope => Some(known)
            case Malformed => None
            case Findings(ids) => if ApprovedScope(ids, known) then Some(ids) else None
  {
  }

  const PACKAGE: set<RecordKey> := {ChangePlanId, IacLinkId, ApprovalId, ChangeWindowId}

  /** `_context`: the four records are there and belong to the case, and the scope is one of its findings. */
  predicate Assembled(c: RemediationCase, package: Package) {
    && (forall key :: key in PACKAGE ==> HasRecord(c.recordIds, key) && key in package.owners && package.owners[key] == c.caseId)
    && ApprovedFindingIds(package.scope, c.findingIds).Some?
  }

  /** An approved case, bound by its schedule to the job, inside its window. */
  predicate Bound(c: RemediationCase, jobId: string, now: int) {
    && c.state.Approved?
    && HasRecord(c.recordIds, ScheduleId) && HasRecord(c.recordIds, ExecutionJobId)
    && c.recordIds[ExecutionJobId] == jobId
    && c.changeWindow.Some?
    && c.changeWindow.value.startsAt <= now < c.changeWindow.value.endsAt
  }

  /** The checks made before the driver is consulted. */
  predicate Released(c: RemediationCase, originator: string, jobId: string, package: Package, now: int) {
    Bound(c, jobId, now) && originator != "" && Assembled(c, package) && now < package.expiresAt
  }

  /** What has to be true of the case, its records, the plan's scope and the time before anything is touched. */
  lemma ReleasedIff(c: RemediationCase, originator: string, jobId: string, package: Package, now: int)
    ensures Released(c, originator, jobId, package, now) <==>
              && c.state == Approved && originator != ""
              && (forall key :: key in {ScheduleId, ExecutionJobId, ChangePlanId, IacLinkId, ApprovalId, ChangeWindowId} ==>
                    key in c.recordIds && c.recordIds[key] != "")
              && c.recordIds[ExecutionJobId] == jobId
              && (forall key :: key in {ChangePlanId, IacLinkId, ApprovalId, ChangeWindowId} ==>
                    key in package.owners && package.owners[key] == c.caseId)
              && c.changeWindow.Some?
              && c.changeWindow.value.startsAt <= now < c.changeWindow.value.endsAt && now < package.expiresAt
              && (package.scope.NoScope? || (package.scope.Findings? && ApprovedScope(package.scope.ids, c.findingIds)))
  {
  }

  /** The target is as approved, the service is well, and a checkpoint could be taken. */
  predicate Prepared<W, C>(driver: Driver<W, C>, env: Environment<W>, world: W) {
    && Passed(driver.preflight(world))
    && Healthy(env.observe(Baseline, world))
    && driver.checkpoint(world).Returned?
  }

  predicate AllProbesPass<W>(probes: seq<W -> Attempt<bool>>, world: W) {
    probes != [] && forall i :: 0 <= i < |probes| ==> probes[i](world) == Returned(true)
  }

  /** The auditor accepted, named outcomes, and cited all the evidence and nothing else. */
  predicate AuditAccepts(audit: Attempt<Audit>, evidence: set<Evidence>) {
    && audit.Returned?
    && audit.value.valid && audit.value.succeeded
    && audit.value.cited == evidence
    && audit.value.decision.Accept?
    && audit.value.validatedOutcomes != []
  }

  /** The deployed world deserves to be kept. */
  predicate Accepted<W, C>(driver: Driver<W, C>, env: Environment<W>, world: W, checkpoint: C, execution: string) {
    var (deployed, step) := driver.deploy(world, checkpoint);
    && Passed(step)
    && Healthy(env.observe(AfterDeploy, deployed))
    && AllProbesPass(env.probes, deployed)
    && AuditAccepts(env.audit(deployed, EvidenceOf(execution)), EvidenceOf(execution))
  }

  /** How far a run gets before it is kept or rolled back. */
  predicate Verifies<W, C>(driver: Driver<W, C>, env: Environment<W>, world: W, checkpoint: C) {
    var (deployed, step) := driver.deploy(world, checkpoint);
    Passed(step) && Healthy(env.observe(AfterDeploy, deployed))
  }

  /** The rollback worked and the service is well again. */
  predicate Recovered<W, C>(driver: Driver<W, C>, env: Environment<W>, deployed: W, checkpoint: C) {
    var (restored, step) := driver.rollback(deployed, checkpoint);
    Passed(step) && Healthy(env.observe(AfterRollback, restored))
  }

  /** The recovery also brought the exact checkpoint back. */
  predicate ExactlyRestored<W, C>(driver: Driver<W, C>, deployed: W, checkpoint: C) {
    var step := driver.rollback(deployed, checkpoint).1;
    step.Returned? && (step.value.restored.None? || step.value.restored.value)
  }

  /** The transitions stored after the start of a run, in order. */
  function Trail(verifies: bool, accepted: bool, recovered: bool, exact: bool): seq<Transition> {
    (if verifies then [StartVerification] else []) +
    (if accepted then [CompleteRemediation]
     else [StartRollback, if recovered && exact then CompleteRollback else Block])
  }

  /** The record types a run writes after its start record, in order. */
  function Written(verifies: bool, accepted: bool, recovered: bool, certified: seq<string>): seq<RecordType> {
    (if verifies then [ExecutionResult] else []) +
    (if accepted then [PostChangeVerification, RemediationCertificate(certified), OriginatorHandoff]
     else [RollbackExecution] + (if recovered then [RollbackVerification] else []))
  }

  function Transitions(events: Log): seq<Transition> {
    seq(|events|, i requires 0 <= i < |events| => events[i].transition)
  }

  function Kinds(records: seq<ProductRecord>): seq<RecordType> {
    seq(|records|, i requires 0 <= i < |records| => records[i].kind)
  }

  /** The request of one step: the record the transition requires, and any others. */
  function Ask(t: Transition, eventId: string, now: string, id: string, extra: Records, detail: string): Request {
    var records := if RequiredRecord(t).Some? then extra[RequiredRecord(t).value := id] else extra;
    Request(t, eventId, now, "execution-policy", records, [], detail, None, None, None, [])
  }

  /** How a rollback is closed: completed, blocked as failed, or blocked as contained. */
  function Settlement(step: Attempt<ActionStep>, health: Attempt<Health>, execution: string)
    : (closing: (Transition, Records, string))
    ensures closing.0.Block? ==> closing.2 != ""
    ensures closing.0.CompleteRollback? || closing.0.Block?
  {
    if !Passed(step) || !Healthy(health) then
      (Block, map[OtherKey("rollback_failure_id") := "RBEXEC-" + execution],
       "not restored")
    else if step.value.restored.Some? && !step.value.restored.value then
      (Block, map[VerificationResultId := "VERIFY-" + execution],
       "contained")
    else (CompleteRollback, map[], "")
  }

  /** The state the step leads to. */
  function Onward(s: CaseState, t: Transition): Option<CaseState> {
    if t.Block? then (if TerminalState(s) || s.Blocked? then None else Some(Blocked))
    else if t in {Prioritize, PreparePlan, SelectWindow} then None
    else LinearTarget(s, t)
  }

  /** A bare request with its required record is accepted on a forward edge or to block. */
  lemma AskAccepted(c: RemediationCase, r: Request)
    requires Onward(c.state, r.transition).Some? && c.caseId != "" && r.eventId != "" && r.occurredAt != "" && r.actor != ""
    requires RequiredRecord(r.transition).Some? ==> HasRecord(r.recordIds, RequiredRecord(r.transition).value)
    requires r.transition.Block? ==> r.detail != ""
    requires r.priority.None? && r.changePlan.None? && r.changeWindow.None? && r.newFindingIds == []
    ensures TransitionCase(c, r).Ok?
    ensures var next := TransitionCase(c, r).value.0;
            Some(next.state) == Onward(c.state, r.transition)
            && (r.transition.Block? ==> next.blockedFrom == Some(c.state))
  {
  }

  lemma ExecutionEdges()
    ensures Onward(Approved, StartExecution) == Some(Executing)
    ensures Onward(Executing, StartVerification) == Some(Verifying)
    ensures Onward(Verifying, CompleteRemediation) == Some(Remediated)
    ensures Onward(Executing, StartRollback) == Onward(Verifying, StartRollback) == Some(RollingBack)
    ensures Onward(RollingBack, CompleteRollback) == Some(RolledBack)
    ensures Onward(RollingBack, Block) == Some(Blocked)
  {
  }

  /** Appending to a log appends its transition. */
  lemma TransitionsExtend(events: Log, e: CaseEvent)
    ensures Transitions(events + [e]) == Transitions(events) + [e.transition]
  {
  }

  /** Between two stores only one case moved, and its log grew by the transitions `trail`. */
  ghost predicate Moved(before: Table, after: Table, caseId: string, trail: seq<Transition>) {
    && caseId in before.cases && caseId in before.events && caseId in after.cases && caseId in after.events
    && after.cases == before.cases[caseId := after.cases[caseId]]
    && Transitions(after.events[caseId]) == Transitions(before.events[caseId]) + trail
  }

  lemma MovedTwice(before: Table, mid: Table, after: Table, caseId: string, one: seq<Transition>, two: seq<Transition>)
    requires Moved(before, mid, caseId, one) && Moved(mid, after, caseId, two)
    ensures Moved(before, after, caseId, one + two)
  {
  }

  lemma MovedOn(before: Table, mid: Table, after: Table, caseId: string, first: Transition)
    requires Moved(before, mid, caseId, [first])
    ensures forall rest :: Moved(mid, after, caseId, rest) ==> Moved(before, after, caseId, [first] + rest)
  {
    forall rest | Moved(mid, after, caseId, rest) ensures Moved(before, after, caseId, [first] + rest) {
      MovedTwice(before, mid, after, caseId, [first], rest);
    }
  }

  /** Trails and record lists, as the pieces a run appends. */
  lemma TrailForms(recovered: bool, exact: bool, kinds: seq<RecordType>, certified: seq<string>)
    ensures var closing := if recovered && exact then CompleteRollback else Block;
            && [] + Trail(false, false, recovered, exact) == [StartRollback, closing]
            && [] + Trail(true, false, recovered, exact) == [StartVerification] + [StartRollback, closing]
            && [] + Trail(true, true, recovered, exact) == [StartVerification] + [CompleteRemediation]
    ensures var verified := if recovered then [RollbackVerification] else [];
            && kinds + [RollbackExecution] + verified == kinds + Written(false, false, recovered, certified)
            && kinds + [ExecutionResult] + [RollbackExecution] + verified == kinds + Written(true, false, recovered, certified)
            && kinds + [ExecutionResult] + [PostChangeVerification, RemediationCertificate(certified), OriginatorHandoff]
               == kinds + Written(true, true, recovered, certified)
  {
  }

  class ExecutionService<W, C> {
    const store: InMemoryCaseStore
    const driver: Driver<W, C>
    const env: Environment<W>
    var records: seq<ProductRecord>
    var calls: seq<Call>
    var world: W

    constructor (store: InMemoryCaseStore, driver: Driver<W, C>, env: Environment<W>, world: W)
      ensures this.store == store && this.driver == driver && this.env == env && this.world == world
      ensures records == [] && calls == []
    {
      this.store, this.driver, this.env, this.world := store, driver, env, world;
      records, calls := [], [];
    }

    ghost predicate Valid() reads store {
      store.Valid() && forall id :: id in store.cases ==> store.cases[id].caseId == id
    }

    method Put(execution: string, caseId: string, kind: RecordType)
      modifies this`records
      ensures records == old(records) + [ProductRecord(execution, caseId, kind)]
      ensures Kinds(records) == Kinds(old(records)) + [kind]
    {
      records := records + [ProductRecord(execution, caseId, kind)];
    }

    /** `advance` along a forward edge, or to a block, with the record the transition needs. */
    method Move(caseId: string, t: Transition, now: string, id: string, extra: Records, detail: string)
      returns (c: RemediationCase)
      requires Valid() && caseId in store.cases && Onward(store.cases[caseId].state, t).Some?
      requires caseId != "" && now != "" && id != "" && (t.Block? ==> detail != "")
      modifies store
      ensures Valid() && Moved(old(store.Contents()), store.Contents(), caseId, [t])
      ensures caseId in store.cases && c == store.cases[caseId]
      ensures Some(c.state) == Onward(old(store.cases[caseId].state), t)
      ensures t.Block? ==> c.blockedFrom == Some(old(store.cases[caseId].state))
    {
      hide TransitionCase, Transitions, Onward;
      var r := Ask(t, "EVT-" + id, now, id, extra, detail);
      AskAccepted(store.cases[caseId], r);
      TransitionFrame(store.cases[caseId], r);
      TransitionsExtend(store.events[caseId], TransitionCase(store.cases[caseId], r).value.1);
      var result := Advance(store, caseId, r);
      assert result.Ok?;
      c := result.value;
    }

    /** Every probe runs, and one that raises has failed. */
    method RunProbes() returns (passed: bool)
      ensures passed <==> AllProbesPass(env.probes, world)
    {
      passed := env.probes != [];
      for i := 0 to |env.probes|
        invariant passed <==> env.probes != [] && forall j :: 0 <= j < i ==> env.probes[j](world) == Returned(true)
      {
        if env.probes[i](world) != Returned(true) { passed := false; }
      }
    }

    method Rollback(caseId: string, checkpoint: C, execution: string, now: string, reason: string)
      returns (result: Result<Outcome, ActionError>)
      requires Valid() && caseId in store.cases && store.cases[caseId].state in {Executing, Verifying}
      requires caseId != "" && execution != "" && now != "" && reason != ""
      modifies this, store
      ensures Valid()
      ensures world == driver.rollback(old(world), checkpoint).0
      ensures calls == old(calls) + [RollbackCall]
      ensures var recovered, exact := Recovered(driver, env, old(world), checkpoint), ExactlyRestored(driver, old(world), checkpoint);
              && Moved(old(store.Contents()), store.Contents(), caseId,
                       [StartRollback, if recovered && exact then CompleteRollback else Block])
              && (if recovered && exact then store.cases[caseId].state.RolledBack?
                  else store.cases[caseId].state.Blocked? && store.cases[caseId].blockedFrom == Some(RollingBack))
              && Kinds(records) == Kinds(old(records)) + [RollbackExecution] + (if recovered then [RollbackVerification] else [])
              && (result.Ok? <==> recovered)
              && (result.Ok? ==> result.value == Outcome(store.cases[caseId], exact, !exact))
    {
      hide Kinds, Transitions, TransitionCase, Onward, Valid, Moved;
      ExecutionEdges();
      ghost var before := store.Contents();
      var (restored, step) := driver.rollback(world, checkpoint);
      world, calls := restored, calls + [RollbackCall];
      var health := env.observe(AfterRollback, world);
      Put("RBEXEC-" + execution, caseId, RollbackExecution);
      var c := Move(caseId, StartRollback, now, "RBEXEC-" + execution, map[], reason);
      ghost var mid := store.Contents();
      var (last, extra, detail) := Settlement(step, health, execution);
      if Passed(step) && Healthy(health) {
        Put("VERIFY-" + execution, caseId, RollbackVerification);
      }
      c := Move(caseId, last, now, "VERIFY-" + execution, extra, detail);
      MovedTwice(before, mid, store.Contents(), caseId, [StartRollback], [last]);
      assert [StartRollback] + [last] == [StartRollback, last];
      if !Passed(step) || !Healthy(health) { return Err(NotRestored); }
      return Ok(Outcome(c, last.CompleteRollback?, last.Block?));
    }

    /** Probes, then the release audit: the reason not to keep the deployment, if there is one. */
    method Judge(execution: string) returns (objection: Option<string>)
      ensures objection.None? <==>
                AllProbesPass(env.probes, world) && AuditAccepts(env.audit(world, EvidenceOf(execution)), EvidenceOf(execution))
      ensures objection.Some? ==> objection.value != ""
    {
      var probed := RunProbes();
      if !probed { return Some("probes failed"); }
      var evidence := EvidenceOf(execution);
      var audit := env.audit(world, evidence);
      if audit.Raised? { return Some("audit raised"); }
      var a := audit.value;
      if !a.valid || !(a.cited <= evidence) || !a.succeeded || !(evidence <= a.cited) {
        return Some("audit invalid");
      }
      if a.decision.Accept? && a.validatedOutcomes == [] {
        return Some("no outcomes");
      }
      if a.decision.RequestRollback? { return Some("rollback requested"); }
      if a.decision.NeedsHumanContext? { return Some("human context"); }
      return None;
    }

    method Complete(caseId: string, execution: string, now: string, certified: seq<string>) returns (outcome: Outcome)
      requires Valid() && caseId in store.cases && store.cases[caseId].state.Verifying?
      requires caseId != "" && now != ""
      modifies this`records, store
      ensures Valid() && Moved(old(store.Contents()), store.Contents(), caseId, [CompleteRemediation])
      ensures store.cases[caseId].state.Remediated?
      ensures outcome == Outcome(store.cases[caseId], false, false)
      ensures Kinds(records) == Kinds(old(records)) + [PostChangeVerification, RemediationCertificate(certified), OriginatorHandoff]
    {
      hide Kinds, Transitions, TransitionCase, Onward, Valid;
      ExecutionEdges();
      Put("VERIFY-" + execution, caseId, PostChangeVerification);
      Put("CERT-" + execution, caseId, RemediationCertificate(certified));
      Put("HANDOFF-" + execution, caseId, OriginatorHandoff);
      var c := Move(caseId, CompleteRemediation, now, "VERIFY-" + execution,
                    map[OtherKey("remediation_certificate_id") := "CERT-" + execution,
                        OtherKey("originator_handoff_id") := "HANDOFF-" + execution], "");
      return Outcome(c, false, false);
    }

    /** What a started run leaves, in terms of what the driver and its judges answered. */
    ghost predicate Ended(before: Table, caseId: string, lead: seq<Transition>,
                          w: W, checkpoint: C, execution: string, earlier: seq<RecordType>, certified: seq<string>,
                          result: Result<Outcome, ActionError>)
      reads this, store
    {
      var deployed := driver.deploy(w, checkpoint).0;
      var accepted, verifies := Accepted(driver, env, w, checkpoint, execution), Verifies(driver, env, w, checkpoint);
      var recovered, exact := Recovered(driver, env, deployed, checkpoint), ExactlyRestored(driver, deployed, checkpoint);
      && Moved(before, store.Contents(), caseId, lead + Trail(verifies, accepted, recovered, exact))
      && (store.cases[caseId].state.Remediated? <==> accepted)
      && (store.cases[caseId].state.RolledBack? <==> !accepted && recovered && exact)
      && (!accepted && !(recovered && exact) ==>
            store.cases[caseId].state.Blocked? && store.cases[caseId].blockedFrom == Some(RollingBack))
      && world == (if accepted then deployed else driver.rollback(deployed, checkpoint).0)
      && Kinds(records) == earlier + Written(verifies, accepted, recovered, certified)
      && (result.Ok? <==> accepted || recovered)
      && (result.Ok? ==> result.value == Outcome(store.cases[caseId], !accepted && exact, !accepted && !exact))
    }

    lemma EndedAfter(before: Table, mid: Table, caseId: string, first: Transition, w: W, checkpoint: C,
                     execution: string, earlier: seq<RecordType>, certified: seq<string>, result: Result<Outcome, ActionError>)
      requires Moved(before, mid, caseId, [first])
      requires Ended(mid, caseId, [], w, checkpoint, execution, earlier, certified, result)
      ensures Ended(before, caseId, [first], w, checkpoint, execution, earlier, certified, result)
    {
      hide Moved, Trail, Kinds, Written, Accepted, Recovered, Verifies, ExactlyRestored;
      MovedOn(before, mid, store.Contents(), caseId, first);
      assert forall rest: seq<Transition> :: [] + rest == rest;
    }

    method DeployAndJudge(caseId: string, checkpoint: C, execution: string, now: string, certified: seq<string>)
      returns (result: Result<Outcome, ActionError>)
      requires Valid() && caseId in store.cases && store.cases[caseId].state.Executing?
      requires caseId != "" && execution != "" && now != ""
      modifies this, store
      ensures Valid()
      ensures Ended(old(store.Contents()), caseId, [], old(world), checkpoint, execution,
                    old(Kinds(records)), certified, result)
      ensures calls == old(calls) + [DeployCall] +
                       (if Accepted(driver, env, old(world), checkpoint, execution) then [] else [RollbackCall])
    {
      hide Kinds, Transitions, TransitionCase, Onward, Valid, Moved;
      ExecutionEdges();
      ghost var before := store.Contents();
      var (deployed, deployment) := driver.deploy(world, checkpoint);
      TrailForms(Recovered(driver, env, deployed, checkpoint), ExactlyRestored(driver, deployed, checkpoint), Kinds(records), certified);
      world, calls := deployed, calls + [DeployCall];
      var health := env.observe(AfterDeploy, world);
      if !Passed(deployment) || !Healthy(health) {
        var reason := if !Passed(deployment) then "deployment failed" else "unhealthy";
        result := Rollback(caseId, checkpoint, execution, now, reason);
        return;
      }
      Put("EXRES-" + execution, caseId, ExecutionResult);
      var c := Move(caseId, StartVerification, now, "EXRES-" + execution, map[], "");
      ghost var mid := store.Contents();
      var objection := Judge(execution);
      if objection.Some? {
        result := Rollback(caseId, checkpoint, execution, now, objection.value);
        MovedOn(before, mid, store.Contents(), caseId, StartVerification);
        return;
      }
      var outcome := Complete(caseId, execution, now, certified);
      MovedOn(before, mid, store.Contents(), caseId, StartVerification);
      return Ok(outcome);
    }

    /**
     * One execution, with no other writer.  A run that is refused changes nothing; a run that
     * starts ends remediated, rolled back, or blocked while rolling back.
     */
    method Execute(caseId: string, originator: string, jobId: string, package: Package,
                   execution: string, at: Timestamps.Stamp)
      returns (result: Result<Outcome, ActionError>)
      requires Valid() && caseId in store.cases && caseId != "" && execution != "" && Timestamps.Valid(at)
      modifies this, store
      ensures Valid()
      ensures var c, w := old(store.cases[caseId]), old(world);
              var starts := Released(c, originator, jobId, package, Timestamps.Instant(at)) && Prepared(driver, env, w);
              if !starts then
                && result.Err?
                && store.Contents() == old(store.Contents())
                && world == w && calls == old(calls) && records == old(records)
              else
                var checkpoint := driver.checkpoint(w).value;
                && Ended(old(store.Contents()), caseId, [StartExecution], w, checkpoint, execution,
                         old(Kinds(records)) + [ExecutionStart],
                         ApprovedFindingIds(package.scope, c.findingIds).value, result)
                && calls == old(calls) + [DeployCall] +
                            (if Accepted(driver, env, w, checkpoint, execution) then [] else [RollbackCall])
    {
      hide Kinds, Transitions, TransitionCase, Onward, Trail, Written, Accepted, Recovered, ExactlyRestored, Verifies, Ended, Moved, Valid;
      ExecutionEdges();
      var now, instant := Timestamps.Text(at), Timestamps.Instant(at);
      assert |now| > 0;
      ghost var before := store.Contents();
      var read := store.Get(caseId);
      var c := read.value;
      if !Released(c, originator, jobId, package, instant) { return Err(NotReleased); }
      var certified := ApprovedFindingIds(package.scope, c.findingIds).value;
      var preflight := driver.preflight(world);
      if !Passed(preflight) { return Err(NotPrepared); }
      var baseline := env.observe(Baseline, world);
      if !Healthy(baseline) { return Err(NotPrepared); }
      var taken := driver.checkpoint(world);
      if taken.Raised? { return Err(NotPrepared); }
      Put(execution, caseId, ExecutionStart);
      c := Move(caseId, StartExecution, now, execution, map[], "");
      ghost var mid, earlier := store.Contents(), Kinds(records);
      result := DeployAndJudge(caseId, taken.value, execution, now, certified);
      EndedAfter(before, mid, caseId, StartExecution, old(world), taken.value, execution, earlier, certified, result);
    }
  }
}
