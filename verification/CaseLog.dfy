/** Whole runs of one case: the projection as a fold over its log, and the human gate. */
module CaseLog {
  import opened Common
  import opened Cases
  import opened CaseShape

  type Log = seq<CaseEvent>

  /** Applying a sequence of requests, one accepted transition after another. */
  function Run(c0: RemediationCase, rs: seq<Request>): Result<(RemediationCase, Log), CaseError> {
    if rs == [] then Ok((c0, []))
    else
      match Run(c0, rs[..|rs| - 1])
      case Err(e) => Err(e)
      case Ok((c, events)) =>
        match TransitionCase(c, rs[|rs| - 1])
        case Err(e) => Err(e)
        case Ok((next, event)) => Ok((next, events + [event]))
  }

  predicate Runs(c0: RemediationCase, rs: seq<Request>) { Fresh(c0) && Run(c0, rs).Ok? }

  function CaseAfter(c0: RemediationCase, rs: seq<Request>): RemediationCase
    requires Run(c0, rs).Ok?
  {
    Run(c0, rs).value.0
  }

  function LogOf(c0: RemediationCase, rs: seq<Request>): Log
    requires Run(c0, rs).Ok?
  {
    Run(c0, rs).value.1
  }

  /** A case and a log that some run of accepted transitions produces. */
  ghost predicate Produced(c: RemediationCase, events: Log) {
    exists c0: RemediationCase, rs: seq<Request> :: Runs(c0, rs) && Run(c0, rs) == Ok((c, events))
  }

  lemma ProducedFresh(c: RemediationCase)
    requires Fresh(c)
    ensures Produced(c, [])
  {
    assert Runs(c, []) && Run(c, []) == Ok((c, []));
  }

  lemma ProducedStep(c: RemediationCase, events: Log, r: Request)
    requires Produced(c, events) && TransitionCase(c, r).Ok?
    ensures Produced(TransitionCase(c, r).value.0, events + [TransitionCase(c, r).value.1])
  {
    var c0: RemediationCase, rs: seq<Request> :| Runs(c0, rs) && Run(c0, rs) == Ok((c, events));
    var longer := rs + [r];
    assert longer[..|longer| - 1] == rs;
    assert Runs(c0, longer);
  }

  /** The last request of a run, seen as a step from the shorter run. */
  lemma LastStep(c0: RemediationCase, rs: seq<Request>)
    requires Runs(c0, rs) && rs != []
    ensures Runs(c0, rs[..|rs| - 1])
    ensures var c := CaseAfter(c0, rs[..|rs| - 1]);
            && TransitionCase(c, rs[|rs| - 1]).Ok?
            && CaseAfter(c0, rs) == TransitionCase(c, rs[|rs| - 1]).value.0
            && LogOf(c0, rs) == LogOf(c0, rs[..|rs| - 1]) + [TransitionCase(c, rs[|rs| - 1]).value.1]
  {
  }

  lemma {:induction false} RunPrefix(c0: RemediationCase, rs: seq<Request>, m: nat)
    requires Runs(c0, rs) && m <= |rs|
    ensures Runs(c0, rs[..m])
    ensures |LogOf(c0, rs)| == |rs| && |LogOf(c0, rs[..m])| == m
    ensures LogOf(c0, rs[..m]) == LogOf(c0, rs)[..m]
    decreases |rs|
  {
    if rs == [] {
    } else {
      LastStep(c0, rs);
      var shorter := rs[..|rs| - 1];
      if m == |rs| {
        assert rs[..m] == rs;
        RunPrefix(c0, shorter, |shorter|);
      } else {
        RunPrefix(c0, shorter, m);
        assert shorter[..m] == rs[..m];
      }
    }
  }

  /** The log of a run: numbered from 1, each event starting where the last one ended. */
  ghost predicate Linked(events: Log) {
    && (forall i :: 0 <= i < |events| ==> events[i].sequence == i + 1)
    && (events != [] ==> events[0].fromState == Open)
    && (forall i :: 0 < i < |events| ==> events[i].fromState == events[i - 1].toState)
  }

  lemma {:induction false} RunShape(c0: RemediationCase, rs: seq<Request>)
    requires Runs(c0, rs)
    ensures var (c, events) := Run(c0, rs).value;
            && Shape(c)
            && c.version == |events| == |rs|
            && Linked(events)
            && (events == [] ==> c.state == Open)
            && (events != [] ==> c.state == events[|events| - 1].toState)
            && c.caseId == c0.caseId && c.tenantId == c0.tenantId && c.assetIds == c0.assetIds
            && c.createdAt == c0.createdAt
            && c0.findingIds <= c.findingIds
    ensures forall i :: 0 <= i < |rs| ==>
              && LogOf(c0, rs)[i].transition == rs[i].transition
              && LogOf(c0, rs)[i].recordIds == rs[i].recordIds
              && LogOf(c0, rs)[i].caseId == c0.caseId
  {
    hide TransitionCase;
    if rs == [] {
      FreshShape(c0);
    } else {
      LastStep(c0, rs);
      RunShape(c0, rs[..|rs| - 1]);
      var c := CaseAfter(c0, rs[..|rs| - 1]);
      TransitionFrame(c, rs[|rs| - 1]);
      TransitionShape(c, rs[|rs| - 1]);
      LinkedExtends(LogOf(c0, rs[..|rs| - 1]), LogOf(c0, rs)[|rs| - 1]);
    }
  }

  lemma LinkedExtends(events: Log, e: CaseEvent)
    requires Linked(events) && e.sequence == |events| + 1
    requires e.fromState == if events == [] then Open else events[|events| - 1].toState
    ensures Linked(events + [e])
  {
  }

  // ----- Replay -----

  /** The part of a projection that the log alone determines. */
  datatype View = View(state: CaseState, version: nat, updatedAt: string, recordIds: Records,
                       blockedFrom: Option<CaseState>)

  function ViewOf(c: RemediationCase): View {
    View(c.state, c.version, c.updatedAt, c.recordIds, c.blockedFrom)
  }

  /** Reading one event: nothing but the event and the view before it. */
  function Absorb(v: View, e: CaseEvent): View {
    View(
      e.toState, e.sequence, e.occurredAt,
      (v.recordIds - Dropped(e.fromState, e.transition)) + e.recordIds,
      match e.transition
      case Block => Some(e.fromState)
      case AddFinding => if e.fromState == e.toState then v.blockedFrom else None
      case Reprioritize => v.blockedFrom
      case ScheduleExecution => v.blockedFrom
      case _ => None)
  }

  function Replay(createdAt: string, events: Log): View {
    if events == [] then View(Open, 0, createdAt, map[], None)
    else Absorb(Replay(createdAt, events[..|events| - 1]), events[|events| - 1])
  }

  /** The stored projection is the fold of its log. */
  lemma {:induction false} ReplayIsProjection(c: RemediationCase, events: Log)
    requires Produced(c, events)
    ensures Replay(c.createdAt, events) == ViewOf(c)
    ensures Linked(events) && c.version == |events|
  {
    var c0: RemediationCase, rs: seq<Request> :| Runs(c0, rs) && Run(c0, rs) == Ok((c, events));
    ReplayRun(c0, rs);
    RunShape(c0, rs);
  }

  lemma {:induction false} ReplayRun(c0: RemediationCase, rs: seq<Request>)
    requires Runs(c0, rs)
    ensures Replay(c0.createdAt, LogOf(c0, rs)) == ViewOf(CaseAfter(c0, rs))
  {
    if rs != [] {
      LastStep(c0, rs);
      var shorter := rs[..|rs| - 1];
      ReplayRun(c0, shorter);
      var c, r := CaseAfter(c0, shorter), rs[|rs| - 1];
      var (next, event) := TransitionCase(c, r).value;
      assert LogOf(c0, rs)[..|LogOf(c0, rs)| - 1] == LogOf(c0, shorter);
      AbsorbIsTransition(c, r);
    }
  }

  lemma AbsorbIsTransition(c: RemediationCase, r: Request)
    requires TransitionCase(c, r).Ok?
    ensures var (next, event) := TransitionCase(c, r).value; Absorb(ViewOf(c), event) == ViewOf(next)
  {
  }

  // ----- The human gate -----

  /** Event `e` sends the case back to the k-th stage or before it. */
  predicate Undoes(e: CaseEvent, k: nat) {
    var landing := Landing(e.fromState, e.transition);
    landing.Some? && landing.value <= k
  }

  /** Position `at` passed stage k with its record, and nothing since undid it. */
  ghost predicate Standing(events: Log, at: nat, k: nat)
    requires k < 9
  {
    && at < |events|
    && StageIndex(events[at].transition) == Some(k)
    && HasRecord(events[at].recordIds, StageRecord(k))
    && forall j :: at < j < |events| ==> !Undoes(events[j], k)
  }

  /** Stages 0 .. |w| - 1 all stand, passed in order at the positions `w`. */
  ghost predicate Chain(events: Log, w: seq<nat>) {
    && |w| <= 9
    && (forall k :: 0 <= k < |w| ==> Standing(events, w[k], k))
    && (forall k :: 0 < k < |w| ==> w[k - 1] < w[k])
  }

  /** What may happen to an approved case without consuming or revoking the approval. */
  predicate Neutral(e: CaseEvent) {
    || e.transition in {ScheduleExecution, Reprioritize, Block, Resume}
    || (e.transition.AddFinding? && e.fromState.Blocked?)
  }

  /** What the run keeps: the standing stages are exactly the stages the case has passed. */
  ghost predicate Gated(c: RemediationCase, rs: seq<Request>, events: Log, w: seq<nat>)
    requires |events| == |rs|
  {
    && |w| == Rank(c.Effective())
    && Chain(events, w)
    && (forall j :: 0 <= j < |events| && events[j].transition.StartExecution? ==> |w| == 9 && w[8] == j)
    && (|w| >= 3 ==> c.changePlan == rs[w[2]].changePlan)
    && (|w| >= 5 ==> c.changeWindow == rs[w[4]].changeWindow)
    && (|w| == 8 ==> forall j :: w[7] < j < |events| ==> Neutral(events[j]))
    && (|w| == 9 ==> forall j :: w[8] < j < |events| ==> StageIndex(events[j].transition).None?)
  }

  /** An event that undoes nothing extends a chain. */
  lemma ChainExtends(events: Log, e: CaseEvent, w: seq<nat>)
    requires Chain(events, w)
    requires forall k :: 0 <= k < |w| ==> !Undoes(e, k)
    ensures Chain(events + [e], w)
  {
    forall k | 0 <= k < |w| ensures Standing(events + [e], w[k], k) {
      assert Standing(events, w[k], k);
    }
  }

  lemma ChainPrefix(events: Log, w: seq<nat>, m: nat)
    requires Chain(events, w) && m <= |w|
    ensures Chain(events, w[..m])
  {
  }

  /** The attachments of a case that has passed their stage change only by going back. */
  lemma AttachmentsHeld(c: RemediationCase, r: Request)
    requires Shape(c) && TransitionCase(c, r).Ok?
    ensures var next := TransitionCase(c, r).value.0;
            && (r.transition.PreparePlan? ==> next.changePlan == r.changePlan)
            && (r.transition.SelectWindow? ==> next.changeWindow == r.changeWindow)
            && (!next.Terminal() && Rank(next.Effective()) >= 3 && !r.transition.PreparePlan? ==>
                  next.changePlan == c.changePlan)
            && (!next.Terminal() && Rank(next.Effective()) >= 5 && !r.transition.SelectWindow? ==>
                  next.changeWindow == c.changeWindow)
            && (next.state in {Remediated, RolledBack} ==>
                  next.changePlan == c.changePlan && next.changeWindow == c.changeWindow)
  {
    TransitionRank(c, r);
  }

  lemma ApprovedStepNeutral(c: RemediationCase, r: Request)
    requires Shape(c) && TransitionCase(c, r).Ok?
    requires Rank(c.Effective()) == 8 && Rank(TransitionCase(c, r).value.0.Effective()) == 8
    ensures Neutral(TransitionCase(c, r).value.1)
  {
  }

  /** A forward step adds its own position to the chain. */
  lemma ChainForward(events: Log, e: CaseEvent, w: seq<nat>)
    requires Chain(events, w) && |w| < 9
    requires StageIndex(e.transition) == Some(|w|) && HasRecord(e.recordIds, StageRecord(|w|))
    ensures Chain(events + [e], w + [|events|])
  {
    assert forall k :: 0 <= k < |w| ==> !Undoes(e, k);
    ChainExtends(events, e, w);
    var events', w' := events + [e], w + [|events|];
    forall k | 0 <= k < |w'| ensures Standing(events', w'[k], k) {
      if k < |w| { assert Standing(events', w[k], k); }
    }
    forall k | 0 < k < |w'| ensures w'[k - 1] < w'[k] {
      if k == |w| { assert Standing(events, w[k - 1], k - 1); }
    }
  }

  lemma ChainBounded(events: Log, w: seq<nat>)
    requires Chain(events, w)
    ensures forall k :: 0 <= k < |w| ==> w[k] < |events|
    ensures |w| == 9 ==> forall j :: w[8] < j < |events| ==> !Undoes(events[j], 8)
  {
    forall k | 0 <= k < |w| ensures w[k] < |events| { assert Standing(events, w[k], k); }
    if |w| == 9 { assert Standing(events, w[8], 8); }
  }

  /** A stage forward adds its own position. */
  lemma GatedForward(c: RemediationCase, rs: seq<Request>, events: Log, w: seq<nat>, r: Request)
    requires |events| == |rs| && Shape(c) && Gated(c, rs, events, w) && TransitionCase(c, r).Ok?
    requires StageIndex(r.transition).Some?
    ensures var (next, event) := TransitionCase(c, r).value;
            Gated(next, rs + [r], events + [event], w + [|events|])
  {
    hide TransitionCase, Chain, RecordShape, RequiredRecord, Landing;
    var (next, event) := TransitionCase(c, r).value;
    TransitionFrame(c, r);
    TransitionRank(c, r);
    AttachmentsHeld(c, r);
    ChainBounded(events, w);
    StageSuppliesRecord(c, r);
    ChainForward(events, event, w);
  }

  /** A move back keeps the stages below its landing. */
  lemma GatedBackward(c: RemediationCase, rs: seq<Request>, events: Log, w: seq<nat>, r: Request)
    requires |events| == |rs| && Shape(c) && Gated(c, rs, events, w) && TransitionCase(c, r).Ok?
    requires StageIndex(r.transition).None? && Landing(c.state, r.transition).Some?
    requires Landing(c.state, r.transition).value <= |w|
    ensures var (next, event) := TransitionCase(c, r).value;
            Gated(next, rs + [r], events + [event], w[..Landing(c.state, r.transition).value])
  {
    hide TransitionCase, Chain, RecordShape, RequiredRecord, Landing;
    var (next, event) := TransitionCase(c, r).value;
    TransitionFrame(c, r);
    TransitionRank(c, r);
    AttachmentsHeld(c, r);
    ChainBounded(events, w);
    var kept := w[..Landing(c.state, r.transition).value];
    ChainPrefix(events, w, |kept|);
    ChainExtends(events, event, kept);
  }

  /** Any other move keeps all of them, or ends the case. */
  lemma GatedElse(c: RemediationCase, rs: seq<Request>, events: Log, w: seq<nat>, r: Request)
    requires |events| == |rs| && Shape(c) && Gated(c, rs, events, w) && TransitionCase(c, r).Ok?
    requires StageIndex(r.transition).None? && Landing(c.state, r.transition).None?
    ensures var (next, event) := TransitionCase(c, r).value;
            Gated(next, rs + [r], events + [event], if Rank(next.Effective()) == Rank(c.Effective()) then w else [])
  {
    hide TransitionCase, Chain, RecordShape, RequiredRecord, Landing;
    var (next, event) := TransitionCase(c, r).value;
    TransitionFrame(c, r);
    TransitionRank(c, r);
    AttachmentsHeld(c, r);
    ChainBounded(events, w);
    if Rank(next.Effective()) == Rank(c.Effective()) {
      ChainExtends(events, event, w);
      if |w| == 8 { ApprovedStepNeutral(c, r); }
    } else {
      ChainPrefix(events, w, 0);
      ChainExtends(events, event, []);
    }
  }

  lemma GatedStep(c: RemediationCase, rs: seq<Request>, events: Log, w: seq<nat>, r: Request)
    returns (w': seq<nat>)
    requires |events| == |rs| && Shape(c) && Gated(c, rs, events, w)
    requires TransitionCase(c, r).Ok?
    ensures var (next, event) := TransitionCase(c, r).value;
            Gated(next, rs + [r], events + [event], w')
  {
    TransitionRank(c, r);
    assert |w| == Rank(c.Effective());
    hide TransitionCase, Gated, Shape, StageIndex, Landing;
    if StageIndex(r.transition).Some? {
      GatedForward(c, rs, events, w, r);
      w' := w + [|events|];
    } else if Landing(c.state, r.transition).Some? {
      GatedBackward(c, rs, events, w, r);
      w' := w[..Landing(c.state, r.transition).value];
    } else {
      GatedElse(c, rs, events, w, r);
      w' := if Rank(TransitionCase(c, r).value.0.Effective()) == Rank(c.Effective()) then w else [];
    }
  }

  lemma EmptyGated(c0: RemediationCase)
    requires Runs(c0, [])
    ensures |LogOf(c0, [])| == 0 && Gated(CaseAfter(c0, []), [], LogOf(c0, []), [])
  {
  }

  lemma {:induction false} GatedRun(c0: RemediationCase, rs: seq<Request>) returns (w: seq<nat>)
    requires Runs(c0, rs)
    ensures |LogOf(c0, rs)| == |rs|
    ensures Gated(CaseAfter(c0, rs), rs, LogOf(c0, rs), w)
  {
    hide TransitionCase, Chain, RecordShape, AttachmentShape, Rank, StageIndex, Landing;
    if rs == [] {
      EmptyGated(c0);
      w := [];
    } else {
      LastStep(c0, rs);
      var shorter := rs[..|rs| - 1];
      RunShape(c0, shorter);
      var v := GatedRun(c0, shorter);
      w := GatedStep(CaseAfter(c0, shorter), shorter, LogOf(c0, shorter), v, rs[|rs| - 1]);
      assert shorter + [rs[|rs| - 1]] == rs;
    }
  }

  /**
   * A log that reaches the start of execution at position i holds, before it, all eight stages
   * up to the human approval, in order, each with its record and none undone; only neutral events
   * separate the approval from the start; and the plan and window at that moment are the ones
   * attached by the standing planning and window stages.
   */
  lemma HumanGate(c0: RemediationCase, rs: seq<Request>, i: nat) returns (w: seq<nat>)
    requires Runs(c0, rs) && i < |rs| && rs[i].transition.StartExecution?
    ensures Runs(c0, rs[..i]) && |LogOf(c0, rs)| == |rs|
    ensures |w| == 8 && Chain(LogOf(c0, rs[..i]), w)
    ensures LogOf(c0, rs[..i]) == LogOf(c0, rs)[..i]
    ensures forall j :: w[7] < j < i ==> Neutral(LogOf(c0, rs[..i])[j])
    ensures CaseAfter(c0, rs[..i]).state.Approved?
    ensures CaseAfter(c0, rs[..i]).changePlan == rs[w[2]].changePlan
    ensures CaseAfter(c0, rs[..i]).changeWindow == rs[w[4]].changeWindow
  {
    hide TransitionCase;
    RunPrefix(c0, rs, i);
    RunPrefix(c0, rs, i + 1);
    w := GatedRun(c0, rs[..i]);
    LastStep(c0, rs[..i + 1]);
    assert rs[..i + 1][..i] == rs[..i];
    RunShape(c0, rs[..i]);
    TransitionRank(CaseAfter(c0, rs[..i]), rs[i]);
    StartOnlyFromApproved(CaseAfter(c0, rs[..i]), rs[i]);
  }

  lemma StartOnlyFromApproved(c: RemediationCase, r: Request)
    requires TransitionCase(c, r).Ok? && r.transition.StartExecution?
    ensures c.state.Approved?
  {
  }

  /** Every stage from the landing of a backward move on was passed again after that move. */
  lemma RemainingStagesRepeated(events: Log, w: seq<nat>, b: nat, k: nat)
    requires Chain(events, w) && b < |events| && k < |w| && Undoes(events[b], k)
    ensures b < w[k]
  {
    assert Standing(events, w[k], k);
    if w[k] == b {
      assert false;
    }
  }

  /** Execution starts at most once, and nothing after it is a stage or a way back. */
  lemma StartIsFinal(c0: RemediationCase, rs: seq<Request>, i: nat, j: nat)
    requires Runs(c0, rs) && i < j < |rs| && rs[i].transition.StartExecution?
    ensures |LogOf(c0, rs)| == |rs|
    ensures StageIndex(rs[j].transition).None?
    ensures Landing(LogOf(c0, rs)[j].fromState, rs[j].transition).None?
  {
    var w := GatedRun(c0, rs);
    RunShape(c0, rs);
    var events := LogOf(c0, rs);
    assert events[i].transition.StartExecution?;
    assert Standing(events, w[8], 8);
    assert !Undoes(events[j], 8);
    assert events[j].transition == rs[j].transition;
    BoundedLanding(events[j]);
  }

  lemma BoundedLanding(e: CaseEvent)
    ensures Landing(e.fromState, e.transition).Some? ==> Undoes(e, 8)
  {
  }

  /** How often execution has started. */
  function Starts(events: Log): nat {
    if events == [] then 0
    else Starts(events[..|events| - 1]) + (if events[|events| - 1].transition.StartExecution? then 1 else 0)
  }

  /** The stored case tells whether execution has started: never, or exactly once. */
  lemma {:induction false} StartsFromRank(c: RemediationCase, events: Log)
    requires Produced(c, events)
    ensures Starts(events) == if Rank(c.Effective()) == 9 then 1 else 0
  {
    var c0: RemediationCase, rs: seq<Request> :| Runs(c0, rs) && Run(c0, rs) == Ok((c, events));
    StartsRun(c0, rs);
  }

  lemma NoStarts(c0: RemediationCase)
    requires Runs(c0, [])
    ensures Starts(LogOf(c0, [])) == 0 && Rank(CaseAfter(c0, []).Effective()) != 9
  {
  }

  lemma StartsStep(c: RemediationCase, events: Log, r: Request)
    requires Shape(c) && TransitionCase(c, r).Ok?
    requires Starts(events) == if Rank(c.Effective()) == 9 then 1 else 0
    ensures var (next, event) := TransitionCase(c, r).value;
            Starts(events + [event]) == if Rank(next.Effective()) == 9 then 1 else 0
  {
    hide TransitionCase, RecordShape, AttachmentShape, Landing, StageIndex;
    var event := TransitionCase(c, r).value.1;
    TransitionRank(c, r);
    TransitionFrame(c, r);
    StartRaisesRank(r.transition);
    assert (events + [event])[..|events + [event]| - 1] == events;
  }

  lemma {:induction false} StartsRun(c0: RemediationCase, rs: seq<Request>)
    requires Runs(c0, rs)
    ensures Starts(LogOf(c0, rs)) == if Rank(CaseAfter(c0, rs).Effective()) == 9 then 1 else 0
  {
    hide TransitionCase, Shape, Starts, Rank;
    if rs == [] {
      NoStarts(c0);
    } else {
      LastStep(c0, rs);
      var shorter := rs[..|rs| - 1];
      StartsRun(c0, shorter);
      RunShape(c0, shorter);
      StartsStep(CaseAfter(c0, shorter), LogOf(c0, shorter), rs[|rs| - 1]);
    }
  }

  lemma StartRaisesRank(t: Transition)
    ensures t.StartExecution? <==> StageIndex(t) == Some(8)
  {
  }
}
