/**
 * The stages between validation and human review, and the bounded loop over them, for one case that nothing else
 * writes meanwhile. Agents, clocks and id factories are inputs; raising ends a run.
 */
module Preapproval {
  import opened Common
  import opened Cases

  // ----- What agents answer -----

  /** An item of an array in an agent's output, as far as the checks tell items apart. */
  datatype Entry = Concrete(text: string) | Placeholder(text: string) | Blank | NotText

  /** An array field; `None` when the output has something else there. */
  type Field = Option<seq<Entry>>

  datatype Decision = Approve | Reject | OtherDecision

  datatype SreOutput = SreOutput(decision: Decision, failureModes: Field, requiredControls: Field,
                                 verificationRequirements: Field, dependencies: Field, falseClaims: bool)

  datatype RollbackOutput = RollbackOutput(decision: Decision, verifiedSteps: Field, triggerCoverage: Field,
                                           failureModes: Field, requiredChanges: Field)

  /** The stored body of an SRE review. */
  datatype SreReview = SreReview(decision: Decision, failureModes: Field, requiredControls: Field,
                                 verificationRequirements: Field)

  /** The array is there, has items, and each is a text that is no placeholder; a blank passes. */
  predicate FilledIn(f: Field) { f.Some? && f.value != [] && forall e :: e in f.value ==> e.Concrete? || e.Blank? }

  /** The array holds nothing but non-blank texts. */
  predicate Strings(f: Field) { f.Some? && forall e :: e in f.value ==> e.Concrete? || e.Placeholder? }

  predicate NonEmptyStrings(f: Field) { Strings(f) && f.value != [] }

  predicate SreSound(decision: Decision, failureModes: Field, requiredControls: Field, verificationRequirements: Field) {
    decision.Approve? ==> FilledIn(failureModes) && FilledIn(requiredControls) && FilledIn(verificationRequirements)
  }

  predicate SreOutputSound(o: SreOutput) {
    SreSound(o.decision, o.failureModes, o.requiredControls, o.verificationRequirements)
  }

  predicate ReviewSound(r: SreReview) {
    SreSound(r.decision, r.failureModes, r.requiredControls, r.verificationRequirements)
  }

  predicate RollbackSound(o: RollbackOutput) {
    match o.decision
    case Approve =>
      FilledIn(o.verifiedSteps) && FilledIn(o.triggerCoverage) && (o.requiredChanges.None? || o.requiredChanges.value == [])
    case Reject => FilledIn(o.requiredChanges)
    case OtherDecision => true
  }

  /** Something the reader of a review can act on: the array is there, has items, and each is a real text. */
  predicate AllConcrete(f: Field) { f.Some? && f.value != [] && forall e :: e in f.value ==> e.Concrete? }

  /** Nothing is missing, empty, a placeholder or no text in the three arrays of an approval. */
  lemma SoundIff(r: SreReview)
    ensures ReviewSound(r) <==>
              (r.decision == Approve ==>
                 forall f :: f in {r.failureModes, r.requiredControls, r.verificationRequirements} ==>
                   f.Some? && f.value != [] && forall e :: e in f.value ==> !e.Placeholder? && !e.NotText?)
  {
  }

  /** `contract` says that the result and its output meet the generic contracts. */
  datatype Reply<+O> = Reply(contract: bool, output: O, cited: set<string>, succeeded: bool)

  /** What the runtime does at each attempt; `None` when it raises. */
  type Runtime<!O> = nat -> Option<Reply<O>>

  predicate Usable<O>(r: Option<Reply<O>>, required: set<string>, sound: O -> bool) {
    r.Some? && r.value.contract && sound(r.value.output) && required <= r.value.cited && r.value.succeeded
  }

  /** A reply the stage asks to be corrected in its substance. */
  predicate Unsound<O>(r: Option<Reply<O>>, sound: O -> bool) {
    r.Some? && r.value.contract && !sound(r.value.output)
  }

  /** A sound reply that only lacks citations. */
  predicate Uncited<O>(r: Option<Reply<O>>, required: set<string>, sound: O -> bool) {
    r.Some? && r.value.contract && sound(r.value.output) && !(required <= r.value.cited)
  }

  /** At most three calls; the last reply is used exactly if it is usable; every earlier one was asked to be corrected,
      for its citations only once and last; and no correction that is due is left out. */
  method RunAgent<O>(runtime: Runtime<O>, required: set<string>, sound: O -> bool)
    returns (r: Option<Reply<O>>, calls: nat)
    ensures 1 <= calls <= 3
    ensures r == if Usable(runtime(calls - 1), required, sound) then runtime(calls - 1) else None
    ensures forall k :: 0 <= k < calls - 2 ==> Unsound(runtime(k), sound)
    ensures calls >= 2 ==> Unsound(runtime(calls - 2), sound) || Uncited(runtime(calls - 2), required, sound)
    ensures Uncited(runtime(calls - 1), required, sound) ==> calls == 3 || (calls >= 2 && Uncited(runtime(calls - 2), required, sound))
    ensures Unsound(runtime(calls - 1), sound) ==> calls == 3 || (calls >= 2 && Uncited(runtime(calls - 2), required, sound))
  {
    var retries := 0;
    var result := runtime(0);
    if result.None? { return None, 1; }
    while !sound(result.value.output) && result.value.contract && retries < 2
      invariant 0 <= retries <= 2 && result == runtime(retries) && result.Some?
      invariant forall k :: 0 <= k < retries ==> Unsound(runtime(k), sound)
    {
      retries := retries + 1;
      result := runtime(retries);
      if result.None? { return None, retries + 1; }
    }
    var failed := !result.value.contract || !sound(result.value.output);
    if !(required <= result.value.cited) && !failed && retries < 2 {
      retries := retries + 1;
      result := runtime(retries);
      if result.None? { return None, retries + 1; }
      failed := !result.value.contract || !sound(result.value.output);
    }
    calls := retries + 1;
    r := if failed || !(required <= result.value.cited) || !result.value.succeeded then None else result;
  }

  /** The `k`-th reply is the first usable one among the three that can be asked for. */
  predicate FirstUsable<O>(runtime: Runtime<O>, required: set<string>, sound: O -> bool, k: nat) {
    k < 3 && Usable(runtime(k), required, sound) && forall j :: 0 <= j < k ==> !Usable(runtime(j), required, sound)
  }

  // ----- The rework rule -----

  type Log = seq<CaseEvent>

  /** A finding that sent the case back to validation starts a new cycle. */
  predicate StartsCycle(e: CaseEvent) { e.transition.AddFinding? && e.toState.Prioritized? }

  /** The sequence number of the last cycle start, or zero. */
  function CycleStart(log: Log): nat {
    if log == [] then 0
    else
      var before, last := CycleStart(log[..|log| - 1]), log[|log| - 1];
      if StartsCycle(last) && last.sequence > before then last.sequence else before
  }

  predicate AlreadyReworked(log: Log) {
    exists e :: e in log && e.transition.RequestRework? && e.sequence > CycleStart(log)
  }

  predicate Sequenced(log: Log) { forall i :: 0 <= i < |log| ==> log[i].sequence == i + 1 }

  /** Every rework in the log was allowed when it was written. */
  predicate ReworkRule(log: Log) {
    forall k :: 0 <= k < |log| && log[k].transition.RequestRework? ==> !AlreadyReworked(log[..k])
  }

  /** Between any two reworks a new cycle starts. */
  predicate OneReworkPerCycle(log: Log) {
    forall i, k :: 0 <= i < k < |log| && log[i].transition.RequestRework? && log[k].transition.RequestRework? ==>
      exists j :: i < j < k && log[j].transition.AddFinding? && log[j].toState.Prioritized?
  }

  lemma {:induction false} CycleStartIsLast(log: Log)
    requires Sequenced(log)
    ensures CycleStart(log) <= |log|
    ensures CycleStart(log) > 0 ==> StartsCycle(log[CycleStart(log) - 1])
    ensures forall j :: CycleStart(log) <= j < |log| ==> !StartsCycle(log[j])
  {
    if log != [] {
      var shorter := log[..|log| - 1];
      CycleStartIsLast(shorter);
      assert forall j :: 0 <= j < |shorter| ==> shorter[j] == log[j];
    }
  }

  lemma ReworkedIff(log: Log)
    requires Sequenced(log)
    ensures AlreadyReworked(log) <==>
              exists i :: 0 <= i < |log| && log[i].transition.RequestRework? && forall j :: i < j < |log| ==> !StartsCycle(log[j])
  {
    CycleStartIsLast(log);
    if AlreadyReworked(log) {
      var e :| e in log && e.transition.RequestRework? && e.sequence > CycleStart(log);
      var i :| 0 <= i < |log| && log[i] == e;
      assert log[i].transition.RequestRework?;
    }
    if i :| 0 <= i < |log| && log[i].transition.RequestRework? && forall j :: i < j < |log| ==> !StartsCycle(log[j]) {
      assert CycleStart(log) <= i;
      assert log[i] in log;
    }
  }

  /** A rework before `k` in whose cycle `k` still lies. */
  predicate ReworkedSince(log: Log, k: nat)
    requires k <= |log|
  {
    exists i :: 0 <= i < k && log[i].transition.RequestRework? && forall j :: i < j < k ==> !StartsCycle(log[j])
  }

  lemma ReworkedBefore(log: Log, k: nat)
    requires Sequenced(log) && k <= |log|
    ensures AlreadyReworked(log[..k]) <==> ReworkedSince(log, k)
  {
    hide AlreadyReworked, StartsCycle;
    var prefix := log[..k];
    assert forall j :: 0 <= j < k ==> prefix[j] == log[j];
    ReworkedIff(prefix);
  }

  /** The rule the review applies is exactly one rework per cycle. */
  lemma RuleMeansOnePerCycle(log: Log)
    requires Sequenced(log)
    ensures ReworkRule(log) <==> OneReworkPerCycle(log)
  {
    hide AlreadyReworked, Sequenced;
    forall k | 0 <= k < |log| ensures AlreadyReworked(log[..k]) <==> ReworkedSince(log, k) { ReworkedBefore(log, k); }
  }

  lemma RuleExtend(log: Log, e: CaseEvent)
    requires ReworkRule(log) && (e.transition.RequestRework? ==> !AlreadyReworked(log))
    ensures ReworkRule(log + [e])
  {
    var longer := log + [e];
    forall k | 0 <= k < |longer| && longer[k].transition.RequestRework? ensures !AlreadyReworked(longer[..k]) {
      if k < |log| { assert longer[..k] == log[..k]; } else { assert longer[..k] == log; }
    }
  }

  // ----- The loop's potential -----

  /** The SRE review the case points to. */
  function ReviewOf(c: RemediationCase): Option<string> {
    if SreReviewId in c.recordIds then Some(c.recordIds[SreReviewId]) else None
  }

  /** That review exists and fails the current checks. */
  predicate Invalid(c: RemediationCase, reviews: map<string, SreReview>) {
    ReviewOf(c).Some? && ReviewOf(c).value in reviews && !ReviewSound(reviews[ReviewOf(c).value])
  }

  /** The iterations to the gate when nothing goes back. */
  function Forward(s: CaseState): nat {
    match s
    case Validated => 5
    case PlanReady => 4
    case SreApproved => 3
    case WindowSelected => 2
    case _ => 1
  }

  /** What an invalid review can still cost. */
  function RetryCost(s: CaseState): nat {
    match s
    case SreApproved => 2
    case WindowSelected => 3
    case RollbackReady => 2
    case _ => 0
  }

  /** The most iterations a run can still need if no window is selected again. */
  function Remaining(c: RemediationCase, reviews: map<string, SreReview>, log: Log): nat {
    Forward(c.state) + (if AlreadyReworked(log) then 0 else 4) + (if Invalid(c, reviews) then RetryCost(c.state) else 0)
  }

  function Occurrences(log: Log, t: Transition): nat {
    if log == [] then 0 else Occurrences(log[..|log| - 1], t) + (if log[|log| - 1].transition == t then 1 else 0)
  }

  lemma OccurrencesExtend(log: Log, e: CaseEvent, t: Transition)
    ensures Occurrences(log + [e], t) == Occurrences(log, t) + (if e.transition == t then 1 else 0)
  {
    assert (log + [e])[..|log + [e]| - 1] == log;
  }

  /** A change-window candidate as it is supplied to the agent. */
  datatype Offered = Offered(startsAt: int, endsAt: int, timezone: string)

  /** What the window agent answers: the id of a candidate and why. */
  datatype Choice = Choice(candidateId: string, rationale: seq<string>, confidence: real)

  /** The clocks and ids of one iteration, and what its agents and tools answer. `now` is read by the stage and
      `gateNow`, later, by the gate. */
  datatype Turn = Turn(now: int, gateNow: int, occurredAt: string, eventId: string, evidenceIds: seq<string>,
                       detail: string, recordId: string, secondId: string, inputs: bool, preChange: bool,
                       plan: Option<ChangePlan>, sre: Runtime<SreOutput>, citations: set<string>,
                       candidates: map<string, Offered>, choice: Option<Choice>, rollback: Runtime<RollbackOutput>,
                       gate: bool, agentStopped: bool)

  /** The window the case gets from the chosen candidate. */
  function Selected(turn: Turn): Option<ChangeWindow> {
    if turn.choice.None? || turn.choice.value.candidateId !in turn.candidates then None
    else
      var choice := turn.choice.value;
      var offered := turn.candidates[choice.candidateId];
      Some(ChangeWindow(turn.recordId, offered.startsAt, offered.endsAt, offered.timezone, choice.rationale,
                        turn.evidenceIds, choice.confidence))
  }

  datatype Ending = ReadyForHuman | Stopped | Exhausted

  /** How a stage ends: it raised, the agent runtime stopped, it moved the case, or there was nothing to do. */
  datatype Step = Raised | Halted | Moved | Unmoved

  predicate Matches(window: ChangeWindow, offered: Offered) {
    window.startsAt == offered.startsAt && window.endsAt == offered.endsAt && window.timezone == offered.timezone
  }

  function RequestOf(t: Transition, turn: Turn, records: Records): Request {
    Request(t, turn.eventId, turn.occurredAt, "preapproval", records, turn.evidenceIds, turn.detail, None, None, None, [])
  }

  /** Where each transition of the loop leads, and what becomes of the review the case points to. */
  lemma Leads(c: RemediationCase, r: Request)
    requires TransitionCase(c, r).Ok?
    ensures var next := TransitionCase(c, r).value.0;
            match r.transition
            case PreparePlan => c.state.Validated? && next.state.PlanReady?
              && (SreReviewId !in r.recordIds ==> ReviewOf(next) == ReviewOf(c))
            case ApproveSre => c.state.PlanReady? && next.state.SreApproved?
              && (SreReviewId in r.recordIds ==> ReviewOf(next) == Some(r.recordIds[SreReviewId]))
            case RetrySre => c.state in {SreApproved, WindowSelected} && next.state.PlanReady?
              && (SreReviewId !in r.recordIds ==> ReviewOf(next).None?)
            case SelectWindow => c.state.SreApproved? && next.state.WindowSelected?
              && (r.changeWindow.Some? ==> next.changeWindow == r.changeWindow)
              && (SreReviewId !in r.recordIds ==> ReviewOf(next) == ReviewOf(c))
            case RequestRework => c.state.WindowSelected? && next.state.Validated?
              && (SreReviewId !in r.recordIds ==> ReviewOf(next).None?)
            case ReviewRollback => c.state.WindowSelected? && next.state.RollbackReady?
              && (SreReviewId !in r.recordIds ==> ReviewOf(next) == ReviewOf(c))
            case ReselectWindow => c.state.RollbackReady? && next.state.SreApproved?
              && (SreReviewId !in r.recordIds ==> ReviewOf(next) == ReviewOf(c))
            case RequestApproval => next.state.AwaitingApproval?
            case Block => next.state.Blocked?
            case Reject => next.state.Rejected?
            case _ => true
  {
  }

  /** The record a request carries is on the case afterwards. */
  lemma Recorded(c: RemediationCase, r: Request, key: RecordKey)
    requires TransitionCase(c, r).Ok? && key in r.recordIds
    ensures var next := TransitionCase(c, r).value.0; key in next.recordIds && next.recordIds[key] == r.recordIds[key]
  {
  }

  lemma ReworkedExtend(log: Log, e: CaseEvent)
    requires Sequenced(log) && e.sequence == |log| + 1 && !StartsCycle(e)
    ensures AlreadyReworked(log + [e]) <==> AlreadyReworked(log) || e.transition.RequestRework?
  {
    CycleStartIsLast(log);
    assert (log + [e])[..|log + [e]| - 1] == log;
    assert CycleStart(log + [e]) == CycleStart(log);
    assert forall x :: x in log + [e] <==> x in log || x == e;
  }

  /** Each move of the loop other than a new review uses up one iteration; a new selection gives three back. */
  lemma MoveCost(c: RemediationCase, reviews: map<string, SreReview>, log: Log, r: Request)
    requires TransitionCase(c, r).Ok? && Sequenced(log) && c.version == |log| && SreReviewId !in r.recordIds
    requires r.transition in {PreparePlan, RetrySre, SelectWindow, RequestRework, ReviewRollback, ReselectWindow}
    requires r.transition.RetrySre? <==> c.state in {SreApproved, WindowSelected} && Invalid(c, reviews)
    requires r.transition.RequestRework? ==> !AlreadyReworked(log)
    ensures var (next, event) := TransitionCase(c, r).value;
            Remaining(next, reviews, log + [event]) + 1
              <= Remaining(c, reviews, log) + (if r.transition.ReselectWindow? then 3 else 0)
    ensures var next := TransitionCase(c, r).value.0;
            Invalid(next, reviews) ==> Invalid(c, reviews) && !r.transition.RetrySre?
  {
    var (next, event) := TransitionCase(c, r).value;
    Leads(c, r);
    TransitionFrame(c, r);
    hide TransitionCase, AlreadyReworked, ReviewSound;
    ReworkedExtend(log, event);
  }

  /** A review by the current checks uses up one iteration too. */
  lemma ReviewCost(c: RemediationCase, reviews: map<string, SreReview>, log: Log, r: Request, reviewed: map<string, SreReview>)
    requires TransitionCase(c, r).Ok? && Sequenced(log) && c.version == |log| && r.transition.ApproveSre?
    requires SreReviewId in r.recordIds && r.recordIds[SreReviewId] in reviewed && ReviewSound(reviewed[r.recordIds[SreReviewId]])
    ensures var (next, event) := TransitionCase(c, r).value;
            Remaining(next, reviewed, log + [event]) + 1 <= Remaining(c, reviews, log) && !Invalid(next, reviewed)
  {
    var (next, event) := TransitionCase(c, r).value;
    Leads(c, r);
    TransitionFrame(c, r);
    hide TransitionCase, AlreadyReworked, ReviewSound;
    ReworkedExtend(log, event);
  }

  /** The log got one event longer. */
  predicate OneOf(before: Log, after: Log, ts: set<Transition>) {
    |after| == |before| + 1 && after == before + [after[|before|]] && after[|before|].transition in ts
  }

  predicate OneMore(before: Log, after: Log, t: Transition) { OneOf(before, after, {t}) }

  /** Reviews are only added, and those added meet the current checks. */
  predicate Kept(before: map<string, SreReview>, after: map<string, SreReview>) {
    && (forall id :: id in before ==> id in after && after[id] == before[id])
    && (forall id :: id in after && id !in before ==> ReviewSound(after[id]))
  }

  /** The review a retry gives as its reason. */
  function Feedback(e: CaseEvent): Option<string> {
    if ReviewFeedbackId in e.recordIds then Some(e.recordIds[ReviewFeedbackId]) else None
  }

  /** A retry names the review it reopens, and that review was in the store and fails the checks. */
  predicate RetryIsLegacy(e: CaseEvent, reviews: map<string, SreReview>) {
    e.transition.RetrySre? ==> Feedback(e).Some? && Feedback(e).value in reviews && !ReviewSound(reviews[Feedback(e).value])
  }

  lemma SoundOutputSoundReview(o: SreOutput)
    requires SreOutputSound(o)
    ensures ReviewSound(SreReview(o.decision, o.failureModes, o.requiredControls, o.verificationRequirements))
  {
  }

  /** What the loop promises about its events. */
  predicate Bounded(ending: Ending, added: Log) {
    && |added| <= 9 + 3 * Occurrences(added, ReselectWindow)
    && (ending.Exhausted? ==> |added| == 14 && Occurrences(added, ReselectWindow) >= 2)
    && Occurrences(added, RetrySre) <= 1
  }

  lemma NoOccurrences()
    ensures forall t :: Occurrences([], t) == 0
  {
  }

  lemma RemainingBounds(c: RemediationCase, reviews: map<string, SreReview>, log: Log)
    ensures 1 <= Remaining(c, reviews, log) <= 9
  {
  }

  lemma LastBounded(ending: Ending, added: Log, e: CaseEvent)
    requires !ending.Exhausted? && |added| < 9 + 3 * Occurrences(added, ReselectWindow) && Occurrences(added, RetrySre) <= 1
    requires e.transition in {RequestApproval, Block, Transition.Reject}
    ensures Bounded(ending, added + [e])
    ensures Occurrences(added + [e], ReselectWindow) == Occurrences(added, ReselectWindow)
  {
    OccurrencesExtend(added, e, ReselectWindow);
    OccurrencesExtend(added, e, RetrySre);
  }

  /** The last iteration adds at most one event, and neither a retry nor a new selection. */
  lemma EndsBounded(ending: Ending, before: Log, added: Log, after: Log, reviews: map<string, SreReview>)
    requires !ending.Exhausted? && |added| < 9 + 3 * Occurrences(added, ReselectWindow) && Occurrences(added, RetrySre) <= 1
    requires forall e :: e in added ==> RetryIsLegacy(e, reviews)
    requires after == before + added || OneOf(before + added, after, {RequestApproval, Block, Transition.Reject})
    ensures before <= after && Bounded(ending, after[|before|..]) && |after[|before|..]| <= |added| + 1
    ensures Occurrences(after[|before|..], ReselectWindow) == Occurrences(added, ReselectWindow)
    ensures forall e :: e in after[|before|..] ==> RetryIsLegacy(e, reviews)
  {
    hide Occurrences, Bounded, ReviewSound, Feedback;
    var end := after[|before + added|..];
    assert after[|before|..] == added + end;
    if end == [] {
      assert added + end == added;
      assert Bounded(ending, added) by { BoundedSoFar(ending, added); }
    } else {
      LastBounded(ending, added, end[0]);
      assert end == [end[0]];
    }
  }

  lemma BoundedSoFar(ending: Ending, added: Log)
    requires !ending.Exhausted? && |added| < 9 + 3 * Occurrences(added, ReselectWindow) && Occurrences(added, RetrySre) <= 1
    ensures Bounded(ending, added)
  {
  }

  lemma KeptTwice(a: map<string, SreReview>, b: map<string, SreReview>, c: map<string, SreReview>)
    requires Kept(a, b) && Kept(b, c)
    ensures Kept(a, c)
  {
  }

  class PreapprovalOrchestrator {
    var current: RemediationCase
    var events: Log
    var reviews: map<string, SreReview>

    constructor (case_: RemediationCase, events: Log, reviews: map<string, SreReview>)
      ensures current == case_ && this.events == events && this.reviews == reviews
    {
      current, this.events, this.reviews := case_, events, reviews;
    }

    ghost predicate Valid()
      reads this
    {
      Sequenced(events) && current.version == |events| && ReworkRule(events)
    }

    ghost function Left(): nat
      reads this
    {
      Remaining(current, reviews, events)
    }

    /** The case and its log move together, or not at all. */
    method Advance(request: Request) returns (ok: bool)
      requires Valid() && (request.transition.RequestRework? ==> !AlreadyReworked(events))
      modifies this`current, this`events
      ensures Valid()
      ensures ok == TransitionCase(old(current), request).Ok?
      ensures if ok
              then (current, events) == (TransitionCase(old(current), request).value.0,
                                         old(events) + [TransitionCase(old(current), request).value.1])
              else current == old(current) && events == old(events)
    {
      var result := TransitionCase(current, request);
      ok := result.Ok?;
      if ok {
        TransitionFrame(current, request);
        hide TransitionCase, AlreadyReworked;
        RuleExtend(events, result.value.1);
        current, events := result.value.0, events + [result.value.1];
      }
    }

    method PreparePlan(turn: Turn) returns (step: Step)
      requires Valid() && current.state.Validated?
      modifies this`current, this`events
      ensures Valid() && step in {Raised, Halted, Moved}
      ensures step.Moved? ==>
                && OneMore(old(events), events, Transition.PreparePlan) && current.state.PlanReady?
                && Left() + 1 <= old(Left()) && (Invalid(current, reviews) ==> old(Invalid(current, reviews)))
      ensures !step.Moved? ==> events == old(events)
    {
      hide TransitionCase, Remaining, Invalid;
      if turn.agentStopped { return Halted; }
      if !turn.inputs || turn.plan.None? { return Raised; }
      var request := RequestOf(Transition.PreparePlan, turn, map[ChangePlanId := turn.recordId, IacLinkId := turn.secondId])
                     .(changePlan := turn.plan);
      var moved := Advance(request);
      if !moved { return Raised; }
      Leads(old(current), request);
      TransitionFrame(old(current), request);
      MoveCost(old(current), reviews, old(events), request);
      step := Moved;
    }

    /** What `_run` and the checks after it leave of the agent's answer. */
    method AskSre(turn: Turn) returns (output: Option<SreOutput>, call: nat)
      ensures output.Some? ==>
                FirstUsable(turn.sre, turn.citations, SreOutputSound, call) && turn.sre(call).value.output == output.value
      ensures output.Some? && turn.preChange ==> !output.value.falseClaims
      ensures output.Some? && output.value.decision.Approve? ==>
                && AllConcrete(output.value.failureModes) && AllConcrete(output.value.requiredControls)
                && AllConcrete(output.value.verificationRequirements)
      ensures output.Some? ==> SreOutputSound(output.value) && Strings(output.value.dependencies)
      ensures output.Some? ==> Strings(output.value.failureModes) && Strings(output.value.requiredControls)
                               && Strings(output.value.verificationRequirements)
    {
      var reply, calls := RunAgent(turn.sre, turn.citations, SreOutputSound);
      call := calls - 1;
      if reply.None? { return None, call; }
      var o := reply.value.output;
      if turn.preChange && o.falseClaims { return None, call; }
      if o.decision.Approve? && !(NonEmptyStrings(o.failureModes) && NonEmptyStrings(o.requiredControls)
                                  && NonEmptyStrings(o.verificationRequirements)) { return None, call; }
      if !(Strings(o.dependencies) && Strings(o.failureModes) && Strings(o.requiredControls)
           && Strings(o.verificationRequirements)) { return None, call; }
      output := Some(o);
    }

    /** The decision of the first usable answer, stored as a review, decides. */
    method ReviewSre(turn: Turn) returns (step: Step, call: nat)
      requires Valid() && current.state.PlanReady?
      modifies this
      ensures step.Moved? ==>
                && FirstUsable(turn.sre, turn.citations, SreOutputSound, call)
                && var o := turn.sre(call).value.output;
                && (current.state.SreApproved? <==> o.decision.Approve?)
                && (current.state.Rejected? <==> o.decision.Reject?)
                && (current.state.Blocked? <==> o.decision.OtherDecision?)
                && turn.recordId !in old(reviews) && ReviewOf(current) == Some(turn.recordId) && turn.recordId in reviews
                && var review := reviews[turn.recordId];
                && review.decision == o.decision && review.failureModes == o.failureModes
                && review.requiredControls == o.requiredControls
                && review.verificationRequirements == o.verificationRequirements
                && (current.state.SreApproved? ==>
                      AllConcrete(o.failureModes) && AllConcrete(o.requiredControls) && AllConcrete(o.verificationRequirements))
      ensures Valid() && Kept(old(reviews), reviews) && step in {Raised, Halted, Moved}
      ensures step.Moved? ==> current.state in {SreApproved, Rejected, Blocked}
      ensures step.Moved? && current.state.SreApproved? ==>
                && OneMore(old(events), events, ApproveSre)
                && Left() + 1 <= old(Left()) && !Invalid(current, reviews)
      ensures step.Moved? && !current.state.SreApproved? ==> OneOf(old(events), events, {Transition.Reject, Transition.Block})
      ensures !step.Moved? ==> events == old(events)
    {
      hide TransitionCase, Remaining, Invalid, ReviewSound, AlreadyReworked, ReworkRule, Sequenced, FirstUsable, AllConcrete;
      if !turn.inputs { return Raised, 0; }
      if turn.agentStopped { return Halted, 0; }
      var output;
      output, call := AskSre(turn);
      if output.None? || turn.recordId in reviews { return Raised, call; }
      var o := output.value;
      var review := SreReview(o.decision, o.failureModes, o.requiredControls, o.verificationRequirements);
      SoundOutputSoundReview(o);
      reviews := reviews[turn.recordId := review];
      var t := match o.decision case Approve => ApproveSre case Reject => Transition.Reject case OtherDecision => Transition.Block;
      var request := RequestOf(t, turn, map[SreReviewId := turn.recordId]);
      var moved := Advance(request);
      if !moved { return Raised, call; }
      Recorded(old(current), request, SreReviewId);
      Leads(old(current), request);
      TransitionFrame(old(current), request);
      if t.ApproveSre? { ReviewCost(old(current), old(reviews), old(events), request, reviews); }
      step := Moved;
    }

    /** Only a review that was there before the current checks can be reopened: one that fails them. */
    method RetryInvalidApproval(turn: Turn) returns (step: Step)
      requires Valid() && current.state in {SreApproved, WindowSelected}
      modifies this`current, this`events
      ensures Valid() && step in {Raised, Unmoved, Moved}
      ensures !step.Moved? ==> current == old(current) && events == old(events)
      ensures step.Unmoved? ==> !Invalid(current, reviews)
      ensures step.Moved? ==>
                && OneMore(old(events), events, RetrySre) && current.state.PlanReady?
                && Left() + 1 <= old(Left()) && old(Invalid(current, reviews)) && !Invalid(current, reviews)
                && Feedback(events[|events| - 1]) == old(ReviewOf(current)) && RetryIsLegacy(events[|events| - 1], reviews)
    {
      hide TransitionCase, Remaining;
      var id := ReviewOf(current);
      if id.None? || id.value !in reviews || !turn.inputs { return Raised; }
      if ReviewSound(reviews[id.value]) { return Unmoved; }
      var request := RequestOf(RetrySre, turn, map[ReviewFeedbackId := id.value]);
      var moved := Advance(request);
      if !moved { return Raised; }
      Leads(old(current), request);
      TransitionFrame(old(current), request);
      MoveCost(old(current), reviews, old(events), request);
      step := Moved;
    }

    /** The window of the case is one of the supplied candidates, and lies in the future. */
    method SelectWindow(turn: Turn) returns (step: Step)
      requires Valid() && current.state.SreApproved? && !Invalid(current, reviews)
      modifies this`current, this`events
      ensures Valid() && step in {Raised, Halted, Moved}
      ensures step.Moved? ==>
                && OneMore(old(events), events, Transition.SelectWindow) && current.state.WindowSelected?
                && Left() + 1 <= old(Left()) && !Invalid(current, reviews)
                && current.changeWindow.Some? && current.changeWindow.value.startsAt > turn.now
                && current.changeWindow.value.windowId == turn.recordId
                && turn.choice.Some? && turn.choice.value.candidateId in turn.candidates
                && Matches(current.changeWindow.value, turn.candidates[turn.choice.value.candidateId])
                && current.changeWindow.value.rationale == turn.choice.value.rationale
                && current.changeWindow.value.confidence == turn.choice.value.confidence
      ensures !step.Moved? ==> events == old(events)
    {
      hide TransitionCase, Remaining, Invalid;
      if turn.agentStopped { return Halted; }
      var window := Selected(turn);
      if !turn.inputs || window.None? || window.value.startsAt <= turn.now { return Raised; }
      var request := RequestOf(Transition.SelectWindow, turn, map[ChangeWindowId := turn.recordId]).(changeWindow := window);
      var moved := Advance(request);
      if !moved { return Raised; }
      Leads(old(current), request);
      TransitionFrame(old(current), request);
      MoveCost(old(current), reviews, old(events), request);
      step := Moved;
    }

    /** The loops of the rework rule: the last cycle start, and a rework after it. */
    method Reworked() returns (already: bool)
      ensures already == AlreadyReworked(events)
    {
      var cycleStart := 0;
      for i := 0 to |events|
        invariant cycleStart == CycleStart(events[..i])
      {
        assert events[..i + 1][..i] == events[..i];
        if StartsCycle(events[i]) && events[i].sequence > cycleStart { cycleStart := events[i].sequence; }
      }
      assert events[..|events|] == events;
      already := false;
      for i := 0 to |events|
        invariant already <==> exists k :: 0 <= k < i && events[k].transition.RequestRework? && events[k].sequence > cycleStart
      {
        if events[i].transition.RequestRework? && events[i].sequence > cycleStart { already := true; }
      }
      if already {
        var k :| 0 <= k < |events| && events[k].transition.RequestRework? && events[k].sequence > cycleStart;
        assert events[k] in events;
      }
    }

    method AskRollback(turn: Turn) returns (output: Option<RollbackOutput>, call: nat)
      ensures output.Some? ==>
                FirstUsable(turn.rollback, turn.citations, RollbackSound, call) && turn.rollback(call).value.output == output.value
      ensures output.Some? && output.value.decision.Approve? ==>
                && AllConcrete(output.value.verifiedSteps) && AllConcrete(output.value.triggerCoverage)
                && output.value.requiredChanges == Some([])
      ensures output.Some? && output.value.decision.Reject? ==> AllConcrete(output.value.requiredChanges)
      ensures output.Some? ==> RollbackSound(output.value) && Strings(output.value.requiredChanges)
    {
      var reply, calls := RunAgent(turn.rollback, turn.citations, RollbackSound);
      call := calls - 1;
      if reply.None? { return None, call; }
      var o := reply.value.output;
      if o.decision.Approve? && !(NonEmptyStrings(o.verifiedSteps) && NonEmptyStrings(o.triggerCoverage)
                                  && Strings(o.requiredChanges) && o.requiredChanges.value == []) { return None, call; }
      if !(Strings(o.verifiedSteps) && Strings(o.triggerCoverage) && Strings(o.failureModes) && Strings(o.requiredChanges)) {
        return None, call;
      }
      output := Some(o);
    }

    /** Approve, send back once per cycle, reject, or block, as the first usable answer decides. */
    method ReviewRollback(turn: Turn) returns (step: Step, call: nat)
      requires Valid() && current.state.WindowSelected? && !Invalid(current, reviews)
      modifies this`current, this`events
      ensures step.Moved? ==>
                && FirstUsable(turn.rollback, turn.citations, RollbackSound, call)
                && var o := turn.rollback(call).value.output;
                && var sendBack := o.requiredChanges.Some? && o.requiredChanges.value != [] && !old(AlreadyReworked(events));
                && (current.state.RollbackReady? <==> o.decision.Approve?)
                && (current.state.Validated? <==> o.decision.Reject? && sendBack)
                && (current.state.Rejected? <==> o.decision.Reject? && !sendBack)
                && (current.state.Blocked? <==> o.decision.OtherDecision?)
                && (current.state.RollbackReady? ==>
                      AllConcrete(o.verifiedSteps) && AllConcrete(o.triggerCoverage) && o.requiredChanges == Some([]))
                && (current.state.Validated? ==> AllConcrete(o.requiredChanges))
      ensures Valid() && step in {Raised, Halted, Moved}
      ensures step.Moved? ==>
                OneOf(old(events), events, {Transition.ReviewRollback, RequestRework, Transition.Reject, Transition.Block})
      ensures step.Moved? ==> current.state in {RollbackReady, Validated, Rejected, Blocked}
      ensures step.Moved? && current.state in {Rejected, Blocked} ==> OneOf(old(events), events, {Transition.Reject, Transition.Block})
      ensures step.Moved? && current.state in {RollbackReady, Validated} ==>
                && OneOf(old(events), events, {Transition.ReviewRollback, RequestRework})
                && Left() + 1 <= old(Left()) && !Invalid(current, reviews)
      ensures step.Moved? && current.state.Validated? ==> !old(AlreadyReworked(events)) && AlreadyReworked(events)
      ensures !step.Moved? ==> events == old(events)
    {
      hide TransitionCase, Remaining, Invalid, AlreadyReworked, ReworkRule, Sequenced, RollbackSound, FirstUsable, AllConcrete;
      if !turn.inputs { return Raised, 0; }
      if turn.agentStopped { return Halted, 0; }
      var output;
      output, call := AskRollback(turn);
      if output.None? { return Raised, call; }
      var o := output.value;
      var t, records := Transition.Block, map[RollbackReviewId := turn.recordId];
      if o.decision.Approve? {
        t := Transition.ReviewRollback;
      } else if o.decision.Reject? {
        var already := Reworked();
        if o.requiredChanges.value != [] && !already {
          t, records := RequestRework, map[ReviewFeedbackId := turn.recordId];
        } else {
          t := Transition.Reject;
        }
      }
      var request := RequestOf(t, turn, records);
      var moved := Advance(request);
      if !moved { return Raised, call; }
      Leads(old(current), request);
      TransitionFrame(old(current), request);
      if t in {Transition.ReviewRollback, RequestRework} { MoveCost(old(current), reviews, old(events), request); }
      ReworkedExtend(old(events), events[|old(events)|]);
      step := Moved;
    }

    /** A window that has started is given up; one still ahead is kept. */
    method ReselectStarted(turn: Turn) returns (step: Step)
      requires Valid() && current.state.RollbackReady?
      modifies this`current, this`events
      ensures Valid() && step in {Raised, Unmoved, Moved}
      ensures !step.Moved? ==> current == old(current) && events == old(events)
      ensures step.Unmoved? ==> current.changeWindow.Some? && current.changeWindow.value.startsAt > turn.now
      ensures step.Moved? ==>
                && OneMore(old(events), events, ReselectWindow) && current.state.SreApproved?
                && Left() + 1 <= old(Left()) + 3 && (Invalid(current, reviews) ==> old(Invalid(current, reviews)))
                && old(current.changeWindow).Some? && old(current.changeWindow).value.startsAt <= turn.now
    {
      hide TransitionCase, Remaining, Invalid;
      if current.changeWindow.None? { return Raised; }
      if current.changeWindow.value.startsAt > turn.now { return Unmoved; }
      if !turn.inputs { return Raised; }
      var request := RequestOf(ReselectWindow, turn, map[]);
      var moved := Advance(request);
      if !moved { return Raised; }
      Leads(old(current), request);
      TransitionFrame(old(current), request);
      MoveCost(old(current), reviews, old(events), request);
      step := Moved;
    }

    /** The policy gate; `gate` stands for its checks other than the review and the window. */
    method PassGate(turn: Turn) returns (step: Step)
      requires Valid() && current.state.RollbackReady?
      modifies this`current, this`events
      ensures Valid() && step in {Raised, Moved}
      ensures step.Moved? ==>
                && OneMore(old(events), events, RequestApproval) && current.state.AwaitingApproval?
                && old(current.changeWindow).Some? && old(current.changeWindow).value.startsAt > turn.gateNow
                && !old(Invalid(current, reviews)) && old(ReviewOf(current)).Some? && old(ReviewOf(current)).value in reviews
      ensures !step.Moved? ==> current == old(current) && events == old(events)
    {
      hide TransitionCase, Remaining;
      var id := ReviewOf(current);
      if id.None? || id.value !in reviews || !reviews[id.value].decision.Approve? || !ReviewSound(reviews[id.value]) {
        return Raised;
      }
      if !turn.gate || current.changeWindow.None? || current.changeWindow.value.startsAt <= turn.gateNow { return Raised; }
      var request := RequestOf(RequestApproval, turn, map[PolicyDecisionId := turn.recordId, HumanReviewPackageId := turn.secondId]);
      var moved := Advance(request);
      if !moved { return Raised; }
      Leads(old(current), request);
      TransitionFrame(old(current), request);
      step := Moved;
    }

    method BlockAgentRun(turn: Turn)
      requires Valid()
      modifies this`current, this`events
      ensures Valid() && (events == old(events) || OneMore(old(events), events, Transition.Block))
    {
      hide TransitionCase;
      var request := RequestOf(Transition.Block, turn, map[OtherKey("agent_run_terminal_id") := turn.recordId]);
      if !current.state.Blocked? {
        var moved := Advance(request);
        if moved { TransitionFrame(old(current), request); }
      }
    }

    /** One iteration: it ends the run, or it moves the case by one event. */
    method Iterate(turn: Turn) returns (ending: Option<Ending>)
      requires Valid()
      modifies this
      ensures Valid() && Kept(old(reviews), reviews)
      ensures ending.None? ==>
                && OneOf(old(events), events, {Transition.PreparePlan, ApproveSre, RetrySre, Transition.SelectWindow,
                                               Transition.ReviewRollback, RequestRework, ReselectWindow})
                && Left() + 1 <= old(Left()) + (if events[|events| - 1].transition.ReselectWindow? then 3 else 0)
                && RetryIsLegacy(events[|events| - 1], old(reviews))
                && (events[|events| - 1].transition.RetrySre? ==> old(Invalid(current, reviews)))
                && (Invalid(current, reviews) ==> old(Invalid(current, reviews)) && !events[|events| - 1].transition.RetrySre?)
      ensures ending.Some? ==> ending.value in {ReadyForHuman, Stopped}
      ensures ending.Some? ==>
                events == old(events) || OneOf(old(events), events, {RequestApproval, Transition.Block, Transition.Reject})
      ensures ending == Some(ReadyForHuman) ==> OneMore(old(events), events, RequestApproval) && current.state.AwaitingApproval?
    {
      hide TransitionCase, Remaining, Invalid, AlreadyReworked, ReviewSound;
      var step := Unmoved;
      match current.state {
      case Validated => step := PreparePlan(turn);
      case PlanReady =>
        var call;
        step, call := ReviewSre(turn);
        if step.Moved? && !current.state.SreApproved? { return Some(Stopped); }
      case SreApproved =>
        step := RetryInvalidApproval(turn);
        if step.Unmoved? { step := SelectWindow(turn); }
      case WindowSelected =>
        step := RetryInvalidApproval(turn);
        if step.Unmoved? {
          var call;
          step, call := ReviewRollback(turn);
          if step.Moved? && current.state !in {RollbackReady, CaseState.Validated} { return Some(Stopped); }
        }
      case RollbackReady =>
        step := ReselectStarted(turn);
        if step.Unmoved? {
          step := PassGate(turn);
          return Some(if step.Moved? then ReadyForHuman else Stopped);
        }
      case _ => step := Raised;
      }
      if step.Halted? { BlockAgentRun(turn); }
      ending := if step.Moved? then None else Some(Stopped);
    }

    /** The bounded loop. With at most one new window selection it ends by its twelfth iteration, so running out of
        iterations means that two windows started in between; and only reviews older than the run are reopened, at
        most one of them. */
    method AdvanceToHumanReview(turns: seq<Turn>) returns (ending: Ending, iterations: nat)
      requires |turns| == 14 && Valid()
      modifies this
      ensures Valid() && Kept(old(reviews), reviews) && old(events) <= events
      ensures Bounded(ending, events[|old(events)|..])
      ensures 1 <= iterations <= 14 && |events[|old(events)|..]| <= iterations
      ensures iterations <= 9 + 3 * Occurrences(events[|old(events)|..], ReselectWindow)
      ensures ending.Exhausted? ==> iterations == 14
      ensures forall e :: e in events[|old(events)|..] ==> RetryIsLegacy(e, old(reviews))
      ensures ending.ReadyForHuman? ==>
                events != old(events) && events[|events| - 1].transition.RequestApproval? && current.state.AwaitingApproval?
    {
      hide Remaining, Invalid, AlreadyReworked, ReviewSound, ReworkRule, Sequenced, Occurrences;
      ghost var added: Log := [];
      ghost var budget := Left();
      RemainingBounds(current, reviews, events);
      assert Occurrences([], ReselectWindow) == 0 == Occurrences([], RetrySre) by { NoOccurrences(); }
      for i := 0 to 14
        invariant Valid() && Kept(old(reviews), reviews)
        invariant events == old(events) + added && |added| == i
        invariant Left() + i <= budget + 3 * Occurrences(added, ReselectWindow)
        invariant Occurrences(added, RetrySre) <= 1
        invariant Occurrences(added, RetrySre) > 0 ==> !Invalid(current, reviews)
        invariant forall e :: e in added ==> RetryIsLegacy(e, old(reviews))
      {
        ghost var kept := reviews;
        RemainingBounds(current, reviews, events);
        var end := Iterate(turns[i]);
        KeptTwice(old(reviews), kept, reviews);
        if end.Some? {
          EndsBounded(end.value, old(events), added, events, old(reviews));
          return end.value, i + 1;
        }
        ghost var e := events[|events| - 1];
        assert events == old(events) + (added + [e]);
        OccurrencesExtend(added, e, ReselectWindow);
        OccurrencesExtend(added, e, RetrySre);
        added := added + [e];
      }
      RemainingBounds(current, reviews, events);
      assert events[|old(events)|..] == added;
      ending, iterations := Exhausted, 14;
    }
  }
}
