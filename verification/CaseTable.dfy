/** The edges of the case machine one by one: from where, on what condition, to where, and what goes with them. */
module CaseTable {
  import opened Common
  import opened Cases

  /** The ids, the actor and the time every event needs. */
  predicate Stamped(c: RemediationCase, r: Request) {
    c.caseId != "" && r.eventId != "" && r.actor != "" && r.occurredAt != ""
  }

  /** No plan, window or finding comes with the request. */
  predicate NoDocuments(r: Request) { r.changePlan.None? && r.changeWindow.None? && r.newFindingIds == [] }

  predicate Bare(r: Request) { r.priority.None? && NoDocuments(r) }

  predicate Unfinished(c: RemediationCase) { c.state !in {Remediated, RolledBack, ClosedNoAction, CaseState.Rejected} }

  /** A forward edge and the record it leaves. */
  datatype Edge = Edge(from: CaseState, via: Transition, to: CaseState, record: RecordKey)

  const FORWARD := {
    Edge(Open, Prioritize, Prioritized, RiskAssessmentId),
    Edge(Prioritized, Validate, Validated, ValidationResultId),
    Edge(Validated, PreparePlan, PlanReady, ChangePlanId),
    Edge(PlanReady, ApproveSre, SreApproved, SreReviewId),
    Edge(SreApproved, SelectWindow, WindowSelected, ChangeWindowId),
    Edge(WindowSelected, ReviewRollback, RollbackReady, RollbackReviewId),
    Edge(RollbackReady, RequestApproval, AwaitingApproval, PolicyDecisionId),
    Edge(AwaitingApproval, ApproveChange, Approved, ApprovalId),
    Edge(Approved, StartExecution, Executing, ExecutionId),
    Edge(Executing, StartVerification, Verifying, ExecutionResultId),
    Edge(Verifying, CompleteRemediation, Remediated, VerificationResultId),
    Edge(Executing, StartRollback, RollingBack, RollbackExecutionId),
    Edge(Verifying, StartRollback, RollingBack, RollbackExecutionId),
    Edge(RollingBack, CompleteRollback, RolledBack, VerificationResultId)}

  /** The transitions that are no forward edge. */
  const SPECIAL := {AddFinding, Reprioritize, ScheduleExecution, RetrySre, RequestRework, ReselectWindow, Block, Resume,
                    CloseNoAction, Transition.Reject}

  /** An assessment, a plan and a window come with exactly the step they are for. */
  predicate Attached(r: Request) {
    && (r.priority.Some? <==> r.transition == Prioritize)
    && (r.changePlan.Some? <==> r.transition == PreparePlan)
    && (r.changeWindow.Some? <==> r.transition == SelectWindow)
    && r.newFindingIds == []
  }

  /** A forward edge is taken exactly with its record and attachment, and leads to its end. */
  lemma ForwardTaken(c: RemediationCase, r: Request, e: Edge)
    requires e in FORWARD && c.state == e.from && r.transition == e.via
    ensures TransitionCase(c, r).Ok? <==>
              e.record in r.recordIds && r.recordIds[e.record] != "" && Attached(r) && Stamped(c, r)
    ensures TransitionCase(c, r).Ok? ==>
              var (next, event) := TransitionCase(c, r).value;
              next.state == e.to && next.blockedFrom.None?
  {
    EdgeIsLinear(e);
    AttachedIff(r);
    hide FORWARD, LinearTarget, RequiredRecord, AttachmentError, Dropped, Reopens;
    assert Target(c, r) == Ok((e.to, None));
  }

  lemma EdgeIsLinear(e: Edge)
    requires e in FORWARD
    ensures LinearTarget(e.from, e.via) == Some(e.to) && RequiredRecord(e.via) == Some(e.record)
    ensures !TerminalState(e.from) && e.via !in SPECIAL
  {
  }

  lemma AttachedIff(r: Request)
    requires r.transition !in SPECIAL
    ensures AttachmentError(r).None? <==> Attached(r)
  {
  }

  /** Off the edges, a forward transition is refused. */
  lemma ForwardOnly(c: RemediationCase, r: Request)
    requires r.transition !in SPECIAL && TransitionCase(c, r).Ok?
    ensures exists e :: e in FORWARD && e.from == c.state && e.via == r.transition
  {
    var to, key := TransitionCase(c, r).value.0.state, RequiredRecord(r.transition).value;
    assert Edge(c.state, r.transition, to, key) in FORWARD;
  }

  lemma CloseNoActionIff(c: RemediationCase, r: Request)
    requires r.transition == CloseNoAction
    ensures TransitionCase(c, r).Ok? <==> c.state in {Prioritized, Validated} && r.detail != "" && Bare(r) && Stamped(c, r)
    ensures TransitionCase(c, r).Ok? ==>
              var next := TransitionCase(c, r).value.0;
              next.state == ClosedNoAction && next.blockedFrom.None?
  {
  }

  lemma RejectIff(c: RemediationCase, r: Request)
    requires r.transition == Transition.Reject
    ensures TransitionCase(c, r).Ok? <==>
              && c.state in {PlanReady, SreApproved, WindowSelected, RollbackReady, AwaitingApproval}
              && r.detail != "" && Bare(r) && Stamped(c, r)
    ensures TransitionCase(c, r).Ok? ==>
              var next := TransitionCase(c, r).value.0;
              next.state == CaseState.Rejected && next.blockedFrom.None?
  {
  }

  /** Any unfinished case can be blocked, once. */
  lemma BlockIff(c: RemediationCase, r: Request)
    requires r.transition == Block
    ensures TransitionCase(c, r).Ok? <==>
              Unfinished(c) && c.state != Blocked && r.detail != "" && Bare(r) && Stamped(c, r)
    ensures TransitionCase(c, r).Ok? ==>
              var next := TransitionCase(c, r).value.0;
              next.state == Blocked && next.blockedFrom == Some(c.state)
  {
  }

  /** A blocked case goes back to where it was blocked; no detail is asked for. */
  lemma ResumeIff(c: RemediationCase, r: Request)
    requires r.transition == Resume
    ensures TransitionCase(c, r).Ok? <==> c.state == Blocked && c.blockedFrom.Some? && Bare(r) && Stamped(c, r)
    ensures TransitionCase(c, r).Ok? ==>
              var next := TransitionCase(c, r).value.0;
              Some(next.state) == c.blockedFrom && next.blockedFrom.None?
  {
  }

  /** Blocking and resuming undo each other, whatever is recorded on the way. */
  lemma ResumeUndoesBlock(c: RemediationCase, block: Request, resume: Request)
    requires block.transition == Block && resume.transition == Resume && TransitionCase(c, block).Ok?
    requires Bare(resume) && resume.eventId != "" && resume.actor != "" && resume.occurredAt != ""
    ensures var blocked := TransitionCase(c, block).value.0;
            && TransitionCase(blocked, resume).Ok?
            && var back := TransitionCase(blocked, resume).value.0;
            && back.state == c.state && back.blockedFrom.None?
            && (back.priority, back.changePlan, back.changeWindow) == (c.priority, c.changePlan, c.changeWindow)
            && back.findingIds == c.findingIds
            && back.recordIds == c.recordIds + block.recordIds + resume.recordIds
  {
    assert c.recordIds - {} == c.recordIds;
  }

  lemma RetrySreIff(c: RemediationCase, r: Request)
    requires r.transition == RetrySre
    ensures TransitionCase(c, r).Ok? <==>
              && c.state in {SreApproved, WindowSelected} && r.detail != ""
              && ReviewFeedbackId in r.recordIds && r.recordIds[ReviewFeedbackId] != "" && Bare(r) && Stamped(c, r)
    ensures TransitionCase(c, r).Ok? ==>
              var next := TransitionCase(c, r).value.0;
              && next.state == PlanReady && next.blockedFrom.None?
              && next.changePlan == c.changePlan && next.changeWindow.None?
              && next.recordIds == (c.recordIds - {SreReviewId, ChangeWindowId}) + r.recordIds
  {
  }

  lemma RequestReworkIff(c: RemediationCase, r: Request)
    requires r.transition == RequestRework
    ensures TransitionCase(c, r).Ok? <==>
              && c.state == WindowSelected && r.detail != ""
              && ReviewFeedbackId in r.recordIds && r.recordIds[ReviewFeedbackId] != "" && Bare(r) && Stamped(c, r)
    ensures TransitionCase(c, r).Ok? ==>
              var next := TransitionCase(c, r).value.0;
              && next.state == Validated && next.blockedFrom.None?
              && next.changePlan.None? && next.changeWindow.None?
              && next.recordIds == (c.recordIds - {IacLinkId, ChangePlanId, SreReviewId, ChangeWindowId, RollbackReviewId,
                                                   PolicyDecisionId, HumanReviewPackageId}) + r.recordIds
  {
  }

  /** No record is asked for. */
  lemma ReselectWindowIff(c: RemediationCase, r: Request)
    requires r.transition == ReselectWindow
    ensures TransitionCase(c, r).Ok? <==> c.state == RollbackReady && r.detail != "" && Bare(r) && Stamped(c, r)
    ensures TransitionCase(c, r).Ok? ==>
              var next := TransitionCase(c, r).value.0;
              && next.state == SreApproved && next.blockedFrom.None?
              && next.changePlan == c.changePlan && next.changeWindow.None?
              && next.recordIds == (c.recordIds - {ChangeWindowId, RollbackReviewId, PolicyDecisionId, HumanReviewPackageId})
                                   + r.recordIds
  {
  }

  /** A new assessment is accepted in every unfinished state, blocked ones included, and moves nothing. */
  lemma ReprioritizeIff(c: RemediationCase, r: Request)
    requires r.transition == Reprioritize
    ensures TransitionCase(c, r).Ok? <==>
              && Unfinished(c) && r.priority.Some? && NoDocuments(r)
              && RiskAssessmentId in r.recordIds && r.recordIds[RiskAssessmentId] != "" && Stamped(c, r)
    ensures TransitionCase(c, r).Ok? ==>
              var next := TransitionCase(c, r).value.0;
              next.state == c.state && next.blockedFrom == c.blockedFrom && next.priority == r.priority
  {
  }

  lemma ScheduleExecutionIff(c: RemediationCase, r: Request)
    requires r.transition == ScheduleExecution
    ensures TransitionCase(c, r).Ok? <==>
              c.state == Approved && ScheduleId in r.recordIds && r.recordIds[ScheduleId] != "" && Bare(r) && Stamped(c, r)
    ensures TransitionCase(c, r).Ok? ==>
              var next := TransitionCase(c, r).value.0;
              next.state == Approved && next.blockedFrom == c.blockedFrom && next.changeWindow == c.changeWindow
  {
  }

  /** A finding needs one id the case does not hold.  From validation to approval it sends the case back to triage without
      plan and window; elsewhere, blocked cases included, it leaves the case where it is. */
  lemma AddFindingIff(c: RemediationCase, r: Request)
    requires r.transition == AddFinding
    ensures TransitionCase(c, r).Ok? <==>
              && Unfinished(c) && (exists id :: id in r.newFindingIds && id !in c.findingIds)
              && FindingId in r.recordIds && r.recordIds[FindingId] != ""
              && r.priority.None? && r.changePlan.None? && r.changeWindow.None? && Stamped(c, r)
    ensures TransitionCase(c, r).Ok? ==>
              var next := TransitionCase(c, r).value.0;
              && (forall id :: id in next.findingIds <==> id in c.findingIds || id in r.newFindingIds)
              && next.priority == c.priority
              && if c.state in {Validated, PlanReady, SreApproved, WindowSelected, RollbackReady, AwaitingApproval, Approved}
                 then
                   && next.state == Prioritized && next.blockedFrom.None? && next.changePlan.None? && next.changeWindow.None?
                   && next.recordIds == (c.recordIds - {ValidationResultId, IacLinkId, ChangePlanId, SreReviewId, ChangeWindowId,
                                                        RollbackReviewId, ReviewFeedbackId, PolicyDecisionId,
                                                        HumanReviewPackageId, ApprovalId, ScheduleId}) + r.recordIds
                 else
                   && next.state == c.state && next.blockedFrom == c.blockedFrom
                   && next.changePlan == c.changePlan && next.changeWindow == c.changeWindow
                   && next.recordIds == c.recordIds + r.recordIds
  {
    var added := NewFindings(c.findingIds, r.newFindingIds);
    assert added != [] ==> added[0] in added;
    assert c.recordIds - {} == c.recordIds;
  }

  /** The event is the request as it was made, at the next place in the history of the case. */
  lemma EventCarries(c: RemediationCase, r: Request)
    requires TransitionCase(c, r).Ok?
    ensures var (next, event) := TransitionCase(c, r).value;
            && event == CaseEvent(r.eventId, c.caseId, c.version + 1, r.transition, c.state, next.state, r.occurredAt, r.actor,
                                  r.recordIds, r.evidenceIds, r.detail)
            && next.updatedAt == r.occurredAt
            && event.eventId != "" && event.actor != "" && event.occurredAt != ""
  {
  }

  /** What is attached replaces what was there; what is recorded is on the case afterwards. */
  lemma AttachmentsStored(c: RemediationCase, r: Request)
    requires TransitionCase(c, r).Ok?
    ensures var next := TransitionCase(c, r).value.0;
            && (r.priority.Some? ==> next.priority == r.priority)
            && (r.changePlan.Some? ==> next.changePlan == r.changePlan)
            && (r.changeWindow.Some? ==> next.changeWindow == r.changeWindow)
            && (forall key :: key in r.recordIds ==> key in next.recordIds && next.recordIds[key] == r.recordIds[key])
            && (forall key :: key in next.recordIds && key !in r.recordIds ==>
                  key in c.recordIds && next.recordIds[key] == c.recordIds[key])
  {
  }
}
