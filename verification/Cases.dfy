/** The remediation case, its event, and the transition function of cases.py. */
module Cases {
  import opened Common

  datatype CaseState =
    | Open | Prioritized | Validated | PlanReady | SreApproved | WindowSelected
    | RollbackReady | AwaitingApproval | Approved | Executing | Verifying
    | Remediated | RollingBack | RolledBack | ClosedNoAction | Rejected | Blocked

  datatype Transition =
    | AddFinding | Prioritize | Reprioritize | Validate | PreparePlan | ApproveSre
    | RetrySre | SelectWindow | ReviewRollback | ReselectWindow | RequestRework
    | RequestApproval | ApproveChange | ScheduleExecution | StartExecution
    | StartVerification | CompleteRemediation | StartRollback | CompleteRollback
    | CloseNoAction | Reject | Block | Resume

  /** Record names are an open set of strings; the ones the lifecycle reads are named. */
  datatype RecordKey =
    | FindingId | RiskAssessmentId | ValidationResultId | IacLinkId | ChangePlanId
    | SreReviewId | ChangeWindowId | RollbackReviewId | ReviewFeedbackId
    | PolicyDecisionId | HumanReviewPackageId | ApprovalId | ScheduleId
    | ExecutionJobId | ExecutionId | ExecutionResultId | VerificationResultId
    | RollbackExecutionId | OtherKey(name: string)

  type Records = map<RecordKey, string>

  datatype RiskAssessment = RiskAssessment(
    assessmentId: string, score: real, urgency: string, factors: seq<string>,
    confidence: real, evidenceIds: seq<string>)

  /** Window bounds are the instants (in seconds) of the texts written by `utc_text`. */
  datatype ChangeWindow = ChangeWindow(
    windowId: string, startsAt: int, endsAt: int, timezone: string,
    rationale: seq<string>, evidenceIds: seq<string>, confidence: real)

  datatype ChangePlan = ChangePlan(
    planId: string, objective: string, changeRef: string, prerequisites: seq<string>,
    steps: seq<string>, rolloutSteps: seq<string>, verificationSteps: seq<string>,
    rollbackSteps: seq<string>, rollbackTriggers: seq<string>, blastRadius: seq<string>,
    evidenceIds: seq<string>)

  datatype CaseEvent = CaseEvent(
    eventId: string, caseId: string, sequence: nat, transition: Transition,
    fromState: CaseState, toState: CaseState, occurredAt: string, actor: string,
    recordIds: Records, evidenceIds: seq<string>, detail: string)

  datatype RemediationCase = RemediationCase(
    caseId: string, tenantId: string, findingIds: seq<string>, assetIds: seq<string>,
    serviceIds: seq<string>, state: CaseState, version: nat, createdAt: string,
    updatedAt: string, priority: Option<RiskAssessment>, changePlan: Option<ChangePlan>,
    changeWindow: Option<ChangeWindow>, recordIds: Records, blockedFrom: Option<CaseState>)
  {
    predicate Terminal() { TerminalState(state) }

    /** The stage a case is at: where it was blocked from, when it is blocked. */
    function Effective(): CaseState {
      if state.Blocked? && blockedFrom.Some? then blockedFrom.value else state
    }
  }

  /** The arguments of one `transition_case` call besides the case. */
  datatype Request = Request(
    transition: Transition, eventId: string, occurredAt: string, actor: string,
    recordIds: Records, evidenceIds: seq<string>, detail: string,
    priority: Option<RiskAssessment>, changePlan: Option<ChangePlan>,
    changeWindow: Option<ChangeWindow>, newFindingIds: seq<string>)

  datatype CaseError =
    | InvalidCase | TerminalCase | MissingRecord(key: RecordKey) | NoNewFinding
    | MissingAttachment | NotAllowed | NeedsDetail | ForeignAttachment | InvalidEvent

  predicate TerminalState(s: CaseState) {
    s in {Remediated, RolledBack, ClosedNoAction, Rejected}
  }

  /** The forward edges. */
  function LinearTarget(s: CaseState, t: Transition): Option<CaseState> {
    match (s, t)
    case (Open, Prioritize) => Some(Prioritized)
    case (Prioritized, Validate) => Some(Validated)
    case (Validated, PreparePlan) => Some(PlanReady)
    case (PlanReady, ApproveSre) => Some(SreApproved)
    case (SreApproved, SelectWindow) => Some(WindowSelected)
    case (WindowSelected, ReviewRollback) => Some(RollbackReady)
    case (RollbackReady, RequestApproval) => Some(AwaitingApproval)
    case (AwaitingApproval, ApproveChange) => Some(Approved)
    case (Approved, StartExecution) => Some(Executing)
    case (Executing, StartVerification) => Some(Verifying)
    case (Verifying, CompleteRemediation) => Some(Remediated)
    case (Executing, StartRollback) => Some(RollingBack)
    case (Verifying, StartRollback) => Some(RollingBack)
    case (RollingBack, CompleteRollback) => Some(RolledBack)
    case _ => None
  }

  /** The record a transition may not be applied without. */
  function RequiredRecord(t: Transition): Option<RecordKey> {
    match t
    case AddFinding => Some(FindingId)
    case Prioritize => Some(RiskAssessmentId)
    case Reprioritize => Some(RiskAssessmentId)
    case Validate => Some(ValidationResultId)
    case PreparePlan => Some(ChangePlanId)
    case ApproveSre => Some(SreReviewId)
    case RetrySre => Some(ReviewFeedbackId)
    case SelectWindow => Some(ChangeWindowId)
    case ReviewRollback => Some(RollbackReviewId)
    case RequestRework => Some(ReviewFeedbackId)
    case RequestApproval => Some(PolicyDecisionId)
    case ApproveChange => Some(ApprovalId)
    case ScheduleExecution => Some(ScheduleId)
    case StartExecution => Some(ExecutionId)
    case StartVerification => Some(ExecutionResultId)
    case CompleteRemediation => Some(VerificationResultId)
    case StartRollback => Some(RollbackExecutionId)
    case CompleteRollback => Some(VerificationResultId)
    case _ => None
  }

  /** An absent record and an empty one are both refused. */
  predicate HasRecord(records: Records, key: RecordKey) {
    key in records && records[key] != ""
  }

  /** States a new finding sends back to validation. */
  predicate Reopenable(s: CaseState) {
    s in {Validated, PlanReady, SreApproved, WindowSelected, RollbackReady,
          AwaitingApproval, Approved}
  }

  /** The supplied ids the case does not hold yet, in the order supplied. */
  function NewFindings(known: seq<string>, supplied: seq<string>): (added: seq<string>)
    ensures forall id :: id in added <==> id in supplied && id !in known
  {
    if supplied == [] then []
    else
      var rest := NewFindings(known, supplied[1..]);
      if supplied[0] in known then rest else [supplied[0]] + rest
  }

  /** Target state and `blocked_from` of a transition, or the reason it is refused. */
  function Target(c: RemediationCase, r: Request): Result<(CaseState, Option<CaseState>), CaseError> {
    match r.transition
    case AddFinding =>
      if NewFindings(c.findingIds, r.newFindingIds) == [] then Err(NoNewFinding)
      else if Reopenable(c.state) then Ok((Prioritized, None))
      else Ok((c.state, c.blockedFrom))
    case Reprioritize =>
      if r.priority.None? then Err(MissingAttachment) else Ok((c.state, c.blockedFrom))
    case ScheduleExecution =>
      if !c.state.Approved? then Err(NotAllowed) else Ok((c.state, c.blockedFrom))
    case RetrySre =>
      if c.state !in {SreApproved, WindowSelected} then Err(NotAllowed)
      else if r.detail == "" then Err(NeedsDetail)
      else Ok((PlanReady, None))
    case RequestRework =>
      if !c.state.WindowSelected? then Err(NotAllowed)
      else if r.detail == "" then Err(NeedsDetail)
      else Ok((Validated, None))
    case ReselectWindow =>
      if !c.state.RollbackReady? then Err(NotAllowed)
      else if r.detail == "" then Err(NeedsDetail)
      else Ok((SreApproved, None))
    case Block =>
      if c.state.Blocked? then Err(NotAllowed)
      else if r.detail == "" then Err(NeedsDetail)
      else Ok((Blocked, Some(c.state)))
    case Resume =>
      if !c.state.Blocked? || c.blockedFrom.None? then Err(NotAllowed)
      else Ok((c.blockedFrom.value, None))
    case CloseNoAction =>
      if c.state !in {Prioritized, Validated} then Err(NotAllowed)
      else if r.detail == "" then Err(NeedsDetail)
      else Ok((ClosedNoAction, None))
    case Reject =>
      if c.state !in {PlanReady, SreApproved, WindowSelected, RollbackReady, AwaitingApproval}
      then Err(NotAllowed)
      else if r.detail == "" then Err(NeedsDetail)
      else Ok((Rejected, None))
    case _ =>
      var next := LinearTarget(c.state, r.transition);
      if next.None? then Err(NotAllowed) else Ok((next.value, None))
  }

  /** A transition carries exactly the attachment it is for. */
  function AttachmentError(r: Request): Option<CaseError> {
    if r.transition.Prioritize? && r.priority.None? then Some(MissingAttachment)
    else if r.transition.PreparePlan? && r.changePlan.None? then Some(MissingAttachment)
    else if r.transition.SelectWindow? && r.changeWindow.None? then Some(MissingAttachment)
    else if r.priority.Some? && r.transition !in {Prioritize, Reprioritize} then Some(ForeignAttachment)
    else if r.changePlan.Some? && !r.transition.PreparePlan? then Some(ForeignAttachment)
    else if r.changeWindow.Some? && !r.transition.SelectWindow? then Some(ForeignAttachment)
    else if !r.transition.AddFinding? && r.newFindingIds != [] then Some(ForeignAttachment)
    else None
  }

  /** Whether applying `t` from `s` reopens the case for validation. */
  predicate Reopens(s: CaseState, t: Transition) {
    t.AddFinding? && Reopenable(s)
  }

  /** Records a backward move invalidates. */
  function Dropped(s: CaseState, t: Transition): set<RecordKey> {
    if Reopens(s, t) then
      {ValidationResultId, IacLinkId, ChangePlanId, SreReviewId, ChangeWindowId,
       RollbackReviewId, ReviewFeedbackId, PolicyDecisionId, HumanReviewPackageId,
       ApprovalId, ScheduleId}
    else match t
      case RetrySre => {SreReviewId, ChangeWindowId}
      case RequestRework =>
        {IacLinkId, ChangePlanId, SreReviewId, ChangeWindowId, RollbackReviewId,
         PolicyDecisionId, HumanReviewPackageId}
      case ReselectWindow =>
        {ChangeWindowId, RollbackReviewId, PolicyDecisionId, HumanReviewPackageId}
      case _ => {}
  }

  function Or<T>(first: Option<T>, second: Option<T>): Option<T> {
    if first.Some? then first else second
  }

  /** `transition_case`: the new projection and the event, or the refusal. */
  function TransitionCase(c: RemediationCase, r: Request): Result<(RemediationCase, CaseEvent), CaseError> {
    if c.Terminal() then Err(TerminalCase)
    else
      var required := RequiredRecord(r.transition);
      if required.Some? && !HasRecord(r.recordIds, required.value) then Err(MissingRecord(required.value))
      else
        match Target(c, r)
        case Err(e) => Err(e)
        case Ok((toState, blockedFrom)) =>
          var bad := AttachmentError(r);
          if bad.Some? then Err(bad.value)
          else if r.eventId == "" || c.caseId == "" || r.actor == "" || r.occurredAt == "" then Err(InvalidEvent)
          else
            var t := r.transition;
            var reopened := Reopens(c.state, t);
            var event := CaseEvent(
              r.eventId, c.caseId, c.version + 1, t, c.state, toState, r.occurredAt, r.actor,
              r.recordIds, r.evidenceIds, r.detail);
            var projection := c.(
              findingIds := if t.AddFinding? then c.findingIds + NewFindings(c.findingIds, r.newFindingIds)
                            else c.findingIds,
              state := toState,
              version := c.version + 1,
              updatedAt := r.occurredAt,
              priority := Or(r.priority, c.priority),
              changePlan := if t.RequestRework? || reopened then None else Or(r.changePlan, c.changePlan),
              changeWindow := if reopened || t in {RetrySre, ReselectWindow, RequestRework} then None
                              else Or(r.changeWindow, c.changeWindow),
              recordIds := (c.recordIds - Dropped(c.state, t)) + r.recordIds,
              blockedFrom := blockedFrom);
            Ok((projection, event))
  }

  /** `open_case`; the constructor refuses missing ids. */
  function OpenCase(caseId: string, tenantId: string, findingIds: seq<string>,
                    assetIds: seq<string>, serviceIds: seq<string>, now: string)
    : Result<RemediationCase, CaseError>
  {
    if caseId == "" || tenantId == "" || findingIds == [] then Err(InvalidCase)
    else Ok(RemediationCase(caseId, tenantId, findingIds, assetIds, serviceIds, Open, 0, now, now,
                            None, None, None, map[], None))
  }

  /** What `open_case` returns. */
  predicate Fresh(c: RemediationCase) {
    && c == RemediationCase(c.caseId, c.tenantId, c.findingIds, c.assetIds, c.serviceIds, Open, 0,
                            c.createdAt, c.createdAt, None, None, None, map[], None)
    && c.caseId != "" && c.tenantId != "" && c.findingIds != []
  }

  lemma OpenCaseIsFresh(caseId: string, tenantId: string, findingIds: seq<string>,
                        assetIds: seq<string>, serviceIds: seq<string>, now: string)
    ensures var result := OpenCase(caseId, tenantId, findingIds, assetIds, serviceIds, now);
            result.Ok? ==> Fresh(result.value)
  {
  }

  /** What no transition changes: identity, ownership and creation; findings only grow. */
  lemma TransitionFrame(c: RemediationCase, r: Request)
    requires TransitionCase(c, r).Ok?
    ensures var (next, event) := TransitionCase(c, r).value;
            && next.caseId == c.caseId == event.caseId
            && next.tenantId == c.tenantId
            && next.assetIds == c.assetIds
            && next.serviceIds == c.serviceIds
            && next.createdAt == c.createdAt
            && c.findingIds <= next.findingIds
            && next.version == c.version + 1 == event.sequence
            && event.fromState == c.state
            && event.toState == next.state
            && event.transition == r.transition
            && event.recordIds == r.recordIds
            && !TerminalState(c.state)
  {
  }
}
