/** What every stored case looks like: the attachments and records its stage entails. */
module CaseShape {
  import opened Common
  import opened Cases

  /** Position on the forward path; everything from execution on is past the gate. */
  function Rank(s: CaseState): nat {
    match s
    case Open => 0
    case Prioritized => 1
    case Validated => 2
    case PlanReady => 3
    case SreApproved => 4
    case WindowSelected => 5
    case RollbackReady => 6
    case AwaitingApproval => 7
    case Approved => 8
    case Executing => 9
    case Verifying => 9
    case RollingBack => 9
    case Remediated => 9
    case RolledBack => 9
    case ClosedNoAction => 0
    case Rejected => 0
    case Blocked => 0
  }

  /** The forward steps in order; step k raises the rank from k to k + 1. */
  function StageIndex(t: Transition): Option<nat> {
    match t
    case Prioritize => Some(0)
    case Validate => Some(1)
    case PreparePlan => Some(2)
    case ApproveSre => Some(3)
    case SelectWindow => Some(4)
    case ReviewRollback => Some(5)
    case RequestApproval => Some(6)
    case ApproveChange => Some(7)
    case StartExecution => Some(8)
    case _ => None
  }

  /** The record the k-th forward step leaves on the case. */
  function StageRecord(k: nat): RecordKey
    requires k < 9
  {
    match k
    case 0 => RiskAssessmentId
    case 1 => ValidationResultId
    case 2 => ChangePlanId
    case 3 => SreReviewId
    case 4 => ChangeWindowId
    case 5 => RollbackReviewId
    case 6 => PolicyDecisionId
    case 7 => ApprovalId
    case _ => ExecutionId
  }

  /** The rank a backward move lands on. */
  function Landing(s: CaseState, t: Transition): Option<nat> {
    if Reopens(s, t) then Some(1)
    else match t
      case RequestRework => Some(2)
      case RetrySre => Some(3)
      case ReselectWindow => Some(4)
      case _ => None
  }

  /** Blocking is recorded exactly by a place to resume to. */
  predicate BlockingShape(c: RemediationCase) {
    && (c.state.Blocked? <==> c.blockedFrom.Some?)
    && (c.blockedFrom.Some? ==> !c.blockedFrom.value.Blocked? && !TerminalState(c.blockedFrom.value))
  }

  /** Plan and window are attached exactly from their stage on. */
  predicate AttachmentShape(c: RemediationCase) {
    var rank := Rank(c.Effective());
    && (c.changePlan.Some? <==> rank >= 3)
    && (c.changeWindow.Some? <==> rank >= 5)
    && (rank >= 1 ==> c.priority.Some?)
  }

  /** Every stage passed left its record. */
  ghost predicate RecordShape(c: RemediationCase) {
    && (forall k :: 0 <= k < Rank(c.Effective()) ==> StageRecord(k) in c.recordIds)
    && (c.Effective().Verifying? ==> ExecutionResultId in c.recordIds)
    && (c.Effective().RollingBack? ==> RollbackExecutionId in c.recordIds)
  }

  ghost predicate Shape(c: RemediationCase) {
    && c.caseId != "" && c.tenantId != "" && c.findingIds != []
    && BlockingShape(c)
    && (!c.Terminal() ==> AttachmentShape(c) && RecordShape(c))
  }

  lemma FreshShape(c: RemediationCase)
    requires Fresh(c)
    ensures Shape(c)
  {
  }

  /** What an accepted transition makes of the case, field by field. */
  lemma TransitionMoves(c: RemediationCase, r: Request)
    requires TransitionCase(c, r).Ok?
    ensures var next, reopened := TransitionCase(c, r).value.0, Reopens(c.state, r.transition);
            && !TerminalState(c.state) && AttachmentError(r).None?
            && Target(c, r) == Ok((next.state, next.blockedFrom))
            && next.priority == Or(r.priority, c.priority)
            && next.changePlan == (if r.transition.RequestRework? || reopened then None else Or(r.changePlan, c.changePlan))
            && next.changeWindow == (if reopened || r.transition in {RetrySre, ReselectWindow, RequestRework} then None
                                     else Or(r.changeWindow, c.changeWindow))
            && next.recordIds == (c.recordIds - Dropped(c.state, r.transition)) + r.recordIds
            && (RequiredRecord(r.transition).Some? ==> HasRecord(r.recordIds, RequiredRecord(r.transition).value))
  {
  }

  lemma TransitionBlocking(c: RemediationCase, r: Request)
    requires BlockingShape(c) && TransitionCase(c, r).Ok?
    ensures BlockingShape(TransitionCase(c, r).value.0)
  {
    hide TransitionCase, Dropped, AttachmentError, RequiredRecord;
    TransitionMoves(c, r);
  }

  lemma TransitionAttachment(c: RemediationCase, r: Request)
    requires BlockingShape(c) && AttachmentShape(c) && TransitionCase(c, r).Ok?
    requires !TransitionCase(c, r).value.0.Terminal()
    ensures AttachmentShape(TransitionCase(c, r).value.0)
  {
    hide TransitionCase, Dropped, RequiredRecord;
    TransitionMoves(c, r);
  }

  /** A transition is one stage forward, a move back to its landing, an ending, or neutral. */
  lemma TransitionRank(c: RemediationCase, r: Request)
    requires BlockingShape(c) && TransitionCase(c, r).Ok?
    ensures var next := TransitionCase(c, r).value.0;
            var rank, after := Rank(c.Effective()), Rank(next.Effective());
            if StageIndex(r.transition).Some? then
              rank == StageIndex(r.transition).value && after == rank + 1
            else if Landing(c.state, r.transition).Some? then
              after == Landing(c.state, r.transition).value && after < rank < 9
            else
              after == rank || (after == 0 && next.Terminal() && rank < 9)
  {
    hide TransitionCase, Dropped, AttachmentError, RequiredRecord;
    TransitionMoves(c, r);
    match r.transition
    case Block =>
    case Resume =>
    case AddFinding =>
    case Reprioritize =>
    case _ =>
  }

  /** No record of a stage at or below the landing is dropped. */
  lemma DroppedAboveLanding(s: CaseState, t: Transition, k: nat)
    requires k < 9 && StageRecord(k) in Dropped(s, t)
    ensures Landing(s, t).Some? && Landing(s, t).value <= k
  {
  }

  /** A backward move drops the record of every stage it undoes, so none stays behind stale. */
  lemma BackwardDropsUndone(c: RemediationCase, r: Request, k: nat)
    requires BlockingShape(c) && TransitionCase(c, r).Ok?
    requires Landing(c.state, r.transition).Some?
    requires Landing(c.state, r.transition).value <= k < Rank(c.Effective()) && k < 9
    ensures StageRecord(k) in Dropped(c.state, r.transition)
    ensures StageRecord(k) in TransitionCase(c, r).value.0.recordIds ==> StageRecord(k) in r.recordIds
  {
  }

  /** A forward step supplies the record of its stage. */
  lemma StageSuppliesRecord(c: RemediationCase, r: Request)
    requires TransitionCase(c, r).Ok? && StageIndex(r.transition).Some?
    ensures HasRecord(r.recordIds, StageRecord(StageIndex(r.transition).value))
  {
  }

  lemma TransitionRecords(c: RemediationCase, r: Request)
    requires BlockingShape(c) && RecordShape(c) && TransitionCase(c, r).Ok?
    requires !TransitionCase(c, r).value.0.Terminal()
    ensures RecordShape(TransitionCase(c, r).value.0)
  {
    var next := TransitionCase(c, r).value.0;
    TransitionRank(c, r);
    assert next.recordIds == (c.recordIds - Dropped(c.state, r.transition)) + r.recordIds;
    forall k | 0 <= k < Rank(next.Effective())
      ensures StageRecord(k) in next.recordIds
    {
      if StageIndex(r.transition) == Some(k) {
        StageSuppliesRecord(c, r);
      } else if StageRecord(k) in Dropped(c.state, r.transition) {
        DroppedAboveLanding(c.state, r.transition, k);
      }
    }
    ExecutionRecords(c, r);
  }

  /** The two states past the start of execution carry their own records. */
  lemma ExecutionRecords(c: RemediationCase, r: Request)
    requires BlockingShape(c) && TransitionCase(c, r).Ok?
    requires c.Effective().Verifying? ==> ExecutionResultId in c.recordIds
    requires c.Effective().RollingBack? ==> RollbackExecutionId in c.recordIds
    ensures var next := TransitionCase(c, r).value.0;
            && (next.Effective().Verifying? ==> ExecutionResultId in next.recordIds)
            && (next.Effective().RollingBack? ==> RollbackExecutionId in next.recordIds)
  {
    hide TransitionCase, AttachmentError, Dropped;
    TransitionMoves(c, r);
    NeverDropped(c.state, r.transition);
  }

  lemma NeverDropped(s: CaseState, t: Transition)
    ensures ExecutionResultId !in Dropped(s, t) && RollbackExecutionId !in Dropped(s, t)
  {
  }

  /** Every transition keeps the shape. */
  lemma TransitionShape(c: RemediationCase, r: Request)
    requires Shape(c) && TransitionCase(c, r).Ok?
    ensures Shape(TransitionCase(c, r).value.0)
  {
    var next := TransitionCase(c, r).value.0;
    TransitionBlocking(c, r);
    if !next.Terminal() {
      TransitionAttachment(c, r);
      TransitionRecords(c, r);
    }
  }
}
