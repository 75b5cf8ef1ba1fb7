/**
 * Sequential intake of findings: each ingest may crash before any of its writes, and other services move the cases
 * between ingests.
 */
module Intake {
  import opened Common
  import opened Cases
  import opened CaseLog
  import CaseShape
  import opened Workflow

  /** The identity a finding comes with. */
  datatype Source = Source(tenantId: string, provider: string, account: string, uid: string)

  /** A stored finding; `risk` is what `assess_priority` makes of its signals, up to the id of the assessment. */
  datatype StoredFinding = StoredFinding(findingId: string, source: Source, resourceUid: string, ruleId: string,
                                         risk: RiskAssessment, caseId: Option<string>)

  /** A raw finding as the parser reads it; `rawUid` is the producer's own id. */
  datatype RawFinding = RawFinding(source: Source, rawUid: string, resourceUid: string, ruleId: string,
                                   risk: RiskAssessment, actionable: bool, valid: bool, serviceIds: seq<string>)

  /** The ids and the time one ingest draws. */
  datatype Draw = Draw(findingId: string, riskId: string, caseId: string, addEventId: string, priorityEventId: string,
                       mergedId: string, now: string)

  datatype IntakeError = NotIngested | Failed | Crashed

  datatype Outcome = Outcome(finding: StoredFinding, case_: RemediationCase, duplicate: bool, caseCreated: bool,
                             findingAttached: bool, priorityChanged: bool)

  type Findings = map<string, StoredFinding>
  type CaseMap = map<string, RemediationCase>

  function CanonicalAssetId(f: StoredFinding): string { f.source.provider + ":" + f.source.account + ":" + f.resourceUid }

  /** Without colons in provider and account the asset id tells every resource apart, across accounts and providers. */
  lemma AssetIdsDiffer(a: StoredFinding, b: StoredFinding)
    requires ':' !in a.source.provider && ':' !in b.source.provider
    requires ':' !in a.source.account && ':' !in b.source.account
    ensures CanonicalAssetId(a) == CanonicalAssetId(b) <==>
              a.source.provider == b.source.provider && a.source.account == b.source.account && a.resourceUid == b.resourceUid
  {
    AssetIdParts(a);
    AssetIdParts(b);
    hide CanonicalAssetId;
    if CanonicalAssetId(a) == CanonicalAssetId(b) {
      FirstColon(a.source.provider, a.source.account + ":" + a.resourceUid,
                 b.source.provider, b.source.account + ":" + b.resourceUid);
      FirstColon(a.source.account, a.resourceUid, b.source.account, b.resourceUid);
    }
  }

  lemma AssetIdParts(f: StoredFinding)
    ensures CanonicalAssetId(f) == f.source.provider + ":" + (f.source.account + ":" + f.resourceUid)
  {
  }

  lemma FirstColon(a: string, x: string, b: string, y: string)
    requires ':' !in a && ':' !in b
    ensures a + ":" + x == b + ":" + y <==> a == b && x == y
  {
    var one, two := a + ":" + x, b + ":" + y;
    assert one[|a|] == ':' && two[|b|] == ':';
    assert forall i :: 0 <= i < |a| ==> one[i] == a[i];
    assert forall i :: 0 <= i < |b| ==> two[i] == b[i];
    assert one[..|a|] == a && one[|a| + 1..] == x && two[..|b|] == b && two[|b| + 1..] == y;
  }

  /** With a colon in an account, two resources can share an asset id. */
  lemma ColonAccountsCollide(source: Source, account: string, uid: string, resource: string, f: StoredFinding)
    ensures var one := f.(source := source.(account := account), resourceUid := uid + ":" + resource);
            var two := f.(source := source.(account := account + ":" + uid), resourceUid := resource);
            CanonicalAssetId(one) == CanonicalAssetId(two) && one.source.account != two.source.account
  {
    assert account + ":" + (uid + ":" + resource) == (account + ":" + uid) + ":" + resource;
    assert |account| < |account + ":" + uid|;
    AssetIdParts(f.(source := source.(account := account), resourceUid := uid + ":" + resource));
    AssetIdParts(f.(source := source.(account := account + ":" + uid), resourceUid := resource));
  }

  /** The case is the one of the finding's tenant for the finding's resource. */
  predicate AboutAsset(f: StoredFinding, c: RemediationCase) {
    c.tenantId == f.source.tenantId && c.assetIds == [CanonicalAssetId(f)]
  }

  /** The higher score wins, and a tie keeps the current assessment. */
  function MergePriority(id: string, current: RiskAssessment, incoming: RiskAssessment): (merged: RiskAssessment)
    ensures merged.score >= current.score && merged.score >= incoming.score
    ensures incoming.score <= current.score ==> merged == current.(assessmentId := id)
    ensures merged.assessmentId == id && merged in {current.(assessmentId := id), incoming.(assessmentId := id)}
  {
    (if incoming.score > current.score then incoming else current).(assessmentId := id)
  }

  /** The priority move an ingest makes: the first assessment of an open case, or a higher one. */
  function PriorityMove(c: RemediationCase, incoming: RiskAssessment, mergedId: string): Option<(Transition, RiskAssessment)> {
    if c.state.Open? then Some((Prioritize, incoming))
    else if c.priority.None? then Some((Reprioritize, incoming))
    else if incoming.score > c.priority.value.score then
      Some((Reprioritize, MergePriority(mergedId, c.priority.value, incoming)))
    else None
  }

  /** An open case is prioritised by the finding; any other case is raised by a finding with a strictly higher score, or if
      it has no assessment at all, and stays as it is otherwise. */
  lemma PriorityMoveIs(c: RemediationCase, incoming: RiskAssessment, mergedId: string)
    ensures var move := PriorityMove(c, incoming, mergedId);
            && (move.None? <==> c.state != Open && c.priority.Some? && incoming.score <= c.priority.value.score)
            && (move.Some? ==>
                  && (move.value.0 == Prioritize <==> c.state == Open)
                  && (move.value.0 == Reprioritize <==> c.state != Open)
                  && move.value.1.score == incoming.score
                  && move.value.1 == incoming.(assessmentId := move.value.1.assessmentId))
  {
  }

  /** The move lowers a score exactly when the case is open and already has a higher one. */
  lemma MoveLowersIff(c: RemediationCase, incoming: RiskAssessment, mergedId: string)
    ensures (c.priority.Some? && PriorityMove(c, incoming, mergedId).Some?
             && PriorityMove(c, incoming, mergedId).value.1.score < c.priority.value.score)
            <==> c.state.Open? && c.priority.Some? && incoming.score < c.priority.value.score
  {
  }

  lemma PriorityMoveRises(c: RemediationCase, incoming: RiskAssessment, mergedId: string)
    requires Prioritised(c)
    ensures var move := PriorityMove(c, incoming, mergedId);
            if move.None? then c.priority.Some? && incoming.score <= c.priority.value.score
            else
              && incoming.score <= move.value.1.score && move.value.0 in {Prioritize, Reprioritize}
              && (move.value.0.Reprioritize? ==> !c.state.Open?)
              && (c.priority.Some? ==> c.priority.value.score <= move.value.1.score)
  {
  }

  // ----- What every state keeps -----

  /** A case has a priority exactly when it has left the open state, and none is blocked from that state. */
  predicate Prioritised(c: RemediationCase) {
    && (c.state.Open? <==> c.priority.None?)
    && (c.state.Blocked? <==> c.blockedFrom.Some?)
    && (c.blockedFrom.Some? ==> !c.blockedFrom.value.Open? && !c.blockedFrom.value.Blocked?)
  }

  /** An assigned finding belongs to its case, which is about its resource, and its score is at most that of the case. */
  predicate Covered(f: StoredFinding, cases: CaseMap) {
    f.caseId.Some? ==>
      && f.caseId.value in cases && f.findingId in cases[f.caseId.value].findingIds
      && AboutAsset(f, cases[f.caseId.value])
      && cases[f.caseId.value].priority.Some? && f.risk.score <= cases[f.caseId.value].priority.value.score
  }

  ghost predicate Good(cases: CaseMap, findings: Findings) {
    && (forall id :: id in cases ==> cases[id].caseId == id && |cases[id].assetIds| == 1 && Prioritised(cases[id]))
    && (forall id :: id in findings ==> findings[id].findingId == id && Covered(findings[id], cases))
    && (forall a, b :: a in findings && b in findings && findings[a].source == findings[b].source ==> a == b)
  }

  /** Nothing disappears, no case passes to another tenant or asset, and no priority score falls. */
  ghost predicate Rises(before: CaseMap, after: CaseMap) {
    forall id :: id in before ==>
      && id in after && before[id].findingIds <= after[id].findingIds
      && after[id].tenantId == before[id].tenantId && after[id].assetIds == before[id].assetIds
      && (before[id].priority.Some? ==>
            after[id].priority.Some? && before[id].priority.value.score <= after[id].priority.value.score)
  }

  /** Only this case may have changed. */
  ghost predicate Elsewhere(before: CaseMap, after: CaseMap, caseId: string) {
    forall id :: id in before && id != caseId ==> id in after && after[id] == before[id]
  }

  /** What services other than intake do to a case: they set no priority and block no open case. */
  predicate ByOthers(c: RemediationCase, r: Request) {
    r.transition !in {Prioritize, Reprioritize} && !(r.transition.Block? && c.state.Open?)
  }

  /** A move of intake: it never lowers a score. */
  predicate ByIntake(c: RemediationCase, r: Request) {
    && r.transition in {AddFinding, Prioritize, Reprioritize}
    && (r.transition.Reprioritize? ==>
          && !c.state.Open? && r.priority.Some?
          && (c.priority.Some? ==> c.priority.value.score <= r.priority.value.score))
  }

  lemma MoveKeepsCase(c: RemediationCase, r: Request)
    requires Prioritised(c) && TransitionCase(c, r).Ok? && (ByOthers(c, r) || ByIntake(c, r))
    ensures var next := TransitionCase(c, r).value.0;
            && Prioritised(next) && c.findingIds <= next.findingIds && next.caseId == c.caseId
            && next.tenantId == c.tenantId && next.assetIds == c.assetIds
            && (c.priority.Some? ==> next.priority.Some? && c.priority.value.score <= next.priority.value.score)
            && (r.priority.Some? ==> next.priority == r.priority)
            && (r.transition.AddFinding? ==> forall id :: id in r.newFindingIds ==> id in next.findingIds)
            && (r.transition.Prioritize? ==> next.state.Prioritized?)
            && (r.priority.None? ==> next.priority == c.priority)
  {
    CaseShape.TransitionMoves(c, r);
    TransitionFrame(c, r);
    hide Dropped, RequiredRecord;
  }

  // ----- The single writes -----

  /** A case moved by intake or by another service. */
  lemma AdvanceKeeps(cases: CaseMap, findings: Findings, id: string, r: Request)
    requires Good(cases, findings) && id in cases && TransitionCase(cases[id], r).Ok?
    requires ByOthers(cases[id], r) || ByIntake(cases[id], r)
    ensures var after := cases[id := TransitionCase(cases[id], r).value.0];
            Good(after, findings) && Rises(cases, after)
  {
    MoveKeepsCase(cases[id], r);
    hide TransitionCase, Prioritised, ByOthers, ByIntake;
  }

  lemma OpenKeeps(cases: CaseMap, findings: Findings, c: RemediationCase)
    requires Good(cases, findings) && Fresh(c) && |c.assetIds| == 1 && c.caseId !in cases
    ensures Good(cases[c.caseId := c], findings) && Rises(cases, cases[c.caseId := c])
  {
  }

  lemma StoreKeeps(cases: CaseMap, findings: Findings, f: StoredFinding)
    requires Good(cases, findings) && f.findingId !in findings && f.caseId.None?
    requires forall id :: id in findings ==> findings[id].source != f.source
    ensures Good(cases, findings[f.findingId := f])
  {
    hide Prioritised;
  }

  lemma AssignKeeps(cases: CaseMap, findings: Findings, f: StoredFinding)
    requires Good(cases, findings) && f.findingId in findings && findings[f.findingId].(caseId := f.caseId) == f
    requires Covered(f, cases)
    ensures Good(cases, findings[f.findingId := f])
  {
    hide Prioritised;
  }

  lemma RisesTwice(a: CaseMap, b: CaseMap, c: CaseMap)
    requires Rises(a, b) && Rises(b, c)
    ensures Rises(a, c)
  {
    forall id | id in a
      ensures && id in c && a[id].findingIds <= c[id].findingIds
              && c[id].tenantId == a[id].tenantId && c[id].assetIds == a[id].assetIds
              && (a[id].priority.Some? ==>
                    c[id].priority.Some? && a[id].priority.value.score <= c[id].priority.value.score)
    {
      assert id in b;
    }
  }

  // ----- Blocking an open case -----

  function MoveOf(t: Transition, priority: Option<RiskAssessment>, eventId: string, now: string, detail: string): Request {
    Request(t, eventId, now, "intake",
            if priority.Some? then map[RiskAssessmentId := priority.value.assessmentId] else map[],
            [], detail, priority, None, None, [])
  }

  /** Blocked before its first assessment, a case gets that assessment by a move that leaves it blocked. */
  lemma BlockedOpenCaseIsRaised(c: RemediationCase, high: RiskAssessment)
    requires Fresh(c) && high.assessmentId != ""
    ensures var blocked := TransitionCase(c, MoveOf(Block, None, "e1", "t", "hold"));
            && blocked.Ok? && PriorityMove(blocked.value.0, high, "m") == Some((Reprioritize, high))
            && var raised := TransitionCase(blocked.value.0, MoveOf(Reprioritize, Some(high), "e2", "t", ""));
            raised.Ok? && BlockedFromOpen(raised.value.0) && raised.value.0.priority == Some(high)
  {
  }

  predicate BlockedFromOpen(c: RemediationCase) { c.state.Blocked? && c.blockedFrom == Some(Open) && c.caseId != "" }

  /** Resumed, it takes the score of the next finding, however low: no service may block an open case. */
  lemma BlockedOpenCaseFalls(c: RemediationCase, low: RiskAssessment)
    requires BlockedFromOpen(c) && low.assessmentId != ""
    ensures var resumed := TransitionCase(c, MoveOf(Resume, None, "e3", "t", ""));
            && resumed.Ok? && PriorityMove(resumed.value.0, low, "m") == Some((Prioritize, low))
            && var fallen := TransitionCase(resumed.value.0, MoveOf(Prioritize, Some(low), "e4", "t", ""));
            fallen.Ok? && fallen.value.0.priority == Some(low)
  {
  }

  // ----- The service -----

  predicate Holds(findings: Findings, f: StoredFinding) { f.findingId in findings && findings[f.findingId] == f }

  /** The stored finding has the identity of the raw one, or is the row an older version kept under the producer's id
      for the same resource and rule. */
  ghost predicate Repeats(findings: Findings, f: StoredFinding, raw: RawFinding) {
    || f.source == raw.source
    || (&& (forall id :: id in findings ==> findings[id].source != raw.source)
        && raw.source.uid != raw.rawUid && raw.rawUid != "" && f.source == raw.source.(uid := raw.rawUid)
        && f.resourceUid == raw.resourceUid && f.ruleId == raw.ruleId)
  }

  ghost predicate Assigned(findings: Findings, raw: RawFinding) {
    exists id :: id in findings && Repeats(findings, findings[id], raw) && findings[id].caseId.Some?
  }

  /** The answer to a finding that is already assigned: that finding, its case, and nothing done. */
  ghost predicate IsReplay(findings: Findings, cases: CaseMap, raw: RawFinding, o: Outcome) {
    && Holds(findings, o.finding) && Repeats(findings, o.finding, raw) && o.finding.caseId == Some(o.case_.caseId)
    && Stored(cases, o.case_) && o.duplicate && !o.caseCreated && !o.findingAttached && !o.priorityChanged
  }

  /** The finding is assigned to the case of the answer, and both are stored. */
  predicate Placed(findings: Findings, cases: CaseMap, o: Outcome) {
    Holds(findings, o.finding) && o.finding.caseId == Some(o.case_.caseId) && Stored(cases, o.case_)
  }

  lemma CoveredHas(f: StoredFinding, cases: CaseMap, findings: Findings)
    requires Good(cases, findings) && Holds(findings, f) && f.caseId.Some?
    ensures f.caseId.value in cases && cases[f.caseId.value].caseId == f.caseId.value
    ensures AboutAsset(f, cases[f.caseId.value])
  {
  }

  lemma RisesSame(cases: CaseMap)
    ensures Rises(cases, cases)
  {
  }

  predicate Stored(cases: CaseMap, c: RemediationCase) { c.caseId in cases && cases[c.caseId] == c }

  lemma RepeatsUnique(cases: CaseMap, findings: Findings, a: string, b: string, raw: RawFinding)
    requires Good(cases, findings) && a in findings && b in findings
    requires Repeats(findings, findings[a], raw) && Repeats(findings, findings[b], raw)
    ensures a == b
  {
  }

  lemma SingleAsset(cases: CaseMap, findings: Findings, f: StoredFinding, c: RemediationCase)
    requires Good(cases, findings) && Stored(cases, c) && Owns(c, f.source.tenantId, CanonicalAssetId(f))
    ensures AboutAsset(f, c)
  {
  }

  lemma NotAssigned(cases: CaseMap, findings: Findings, existing: Option<StoredFinding>, raw: RawFinding)
    requires Good(cases, findings) && (existing.Some? ==> existing.value.caseId.None?)
    requires existing.Some? ==> Holds(findings, existing.value) && Repeats(findings, existing.value, raw)
    requires existing.None? ==> forall id :: id in findings ==> !Repeats(findings, findings[id], raw)
    ensures !Assigned(findings, raw)
  {
    hide Repeats;
    if Assigned(findings, raw) && existing.Some? {
      var id :| id in findings && Repeats(findings, findings[id], raw) && findings[id].caseId.Some?;
      RepeatsUnique(cases, findings, id, existing.value.findingId, raw);
    }
  }

  /** Findings on one case are about one resource of one tenant, whatever was ingested, crashed or moved before. */
  lemma OneResourcePerCase(cases: CaseMap, findings: Findings, a: string, b: string)
    requires Good(cases, findings) && a in findings && b in findings
    requires findings[a].caseId.Some? && findings[a].caseId == findings[b].caseId
    requires forall id :: id in findings ==> ':' !in findings[id].source.provider && ':' !in findings[id].source.account
    ensures findings[a].source.tenantId == findings[b].source.tenantId
    ensures findings[a].source.provider == findings[b].source.provider
    ensures findings[a].source.account == findings[b].source.account
    ensures findings[a].resourceUid == findings[b].resourceUid
  {
    hide Prioritised, CanonicalAssetId;
    assert Covered(findings[a], cases) && Covered(findings[b], cases);
    AssetIdsDiffer(findings[a], findings[b]);
  }

  class RemediationIntake {
    const store: InMemoryCaseStore
    var findings: Findings

    constructor (store: InMemoryCaseStore)
      requires store.Valid() && store.cases == map[]
      ensures this.store == store && findings == map[] && State()
    {
      this.store := store;
      findings := map[];
    }

    ghost predicate State()
      reads this, store
    {
      store.Valid() && Good(store.cases, findings)
    }

    /** Any other service moving a case. */
    method MovedByOthers(caseId: string, r: Request) returns (result: Result<RemediationCase, StoreError>)
      requires State() && caseId in store.cases && ByOthers(store.cases[caseId], r)
      modifies store
      ensures State() && Rises(old(store.cases), store.cases)
    {
      hide TransitionCase, ByOthers;
      ghost var before := store.cases;
      result := Advance(store, caseId, r);
      if TransitionCase(before[caseId], r).Ok? { AdvanceKeeps(before, findings, caseId, r); }
    }

    method BySource(source: Source) returns (found: Option<StoredFinding>)
      requires State()
      ensures found.Some? ==> Holds(findings, found.value) && found.value.source == source
      ensures found.None? ==> forall id :: id in findings ==> findings[id].source != source
    {
      if id :| id in findings && findings[id].source == source {
        return Some(findings[id]);
      }
      found := None;
    }

    /** The stored finding a raw one repeats. */
    method Existing(raw: RawFinding) returns (found: Option<StoredFinding>)
      requires State()
      ensures found.Some? ==> Holds(findings, found.value) && Repeats(findings, found.value, raw)
      ensures found.None? ==> forall id :: id in findings ==> !Repeats(findings, findings[id], raw)
      ensures found.None? ==> forall id :: id in findings ==> findings[id].source != raw.source
    {
      found := BySource(raw.source);
      if found.None? && raw.source.uid != raw.rawUid && raw.rawUid != "" {
        var legacy := BySource(raw.source.(uid := raw.rawUid));
        if legacy.Some? && legacy.value.resourceUid == raw.resourceUid && legacy.value.ruleId == raw.ruleId {
          found := legacy;
        }
      }
    }

    method StoreFinding(raw: RawFinding, draw: Draw) returns (r: Result<StoredFinding, IntakeError>)
      requires State() && forall id :: id in findings ==> findings[id].source != raw.source
      modifies this`findings
      ensures State() && (r.Ok? ==> Holds(findings, r.value) && r.value.caseId.None?)
    {
      if !raw.valid { return Err(NotIngested); }
      if draw.findingId in findings { return Err(Failed); }
      var f := StoredFinding(draw.findingId, raw.source, raw.resourceUid, raw.ruleId, raw.risk, None);
      StoreKeeps(store.cases, findings, f);
      findings := findings[f.findingId := f];
      r := Ok(f);
    }

    /** The active case of the asset, or a new one when writing is still possible. */
    method CurrentCase(f: StoredFinding, assetId: string, raw: RawFinding, draw: Draw, mayWrite: bool)
      returns (r: Result<(RemediationCase, bool), IntakeError>)
      requires State()
      modifies store
      ensures State() && Rises(old(store.cases), store.cases)
      ensures Elsewhere(old(store.cases), store.cases, draw.caseId)
      ensures r.Ok? ==> Stored(store.cases, r.value.0) && Owns(r.value.0, f.source.tenantId, assetId)
      ensures r.Ok? ==> if r.value.1 then mayWrite && r.value.0.caseId == draw.caseId && draw.caseId !in old(store.cases)
                        else store.cases == old(store.cases)
    {
      var found := store.FindActiveByAsset(f.source.tenantId, assetId);
      if found.Some? { return Ok((found.value, false)); }
      if !mayWrite { return Err(Crashed); }
      var opening := OpenCase(draw.caseId, f.source.tenantId, [f.findingId], [assetId], raw.serviceIds, draw.now);
      if opening.Err? { return Err(Failed); }
      OpenCaseIsFresh(draw.caseId, f.source.tenantId, [f.findingId], [assetId], raw.serviceIds, draw.now);
      ghost var before := store.cases;
      var created := store.Create(opening.value);
      // Undisturbed, a refused create means that the drawn case id is taken; no active case can have appeared.
      if created.Err? { return Err(Failed); }
      OpenKeeps(before, findings, opening.value);
      r := Ok((opening.value, true));
    }

    /** One move of the case by intake. */
    method Move(c: RemediationCase, request: Request) returns (r: Result<RemediationCase, IntakeError>)
      requires State() && Stored(store.cases, c) && ByIntake(c, request)
      modifies store
      ensures State() && Rises(old(store.cases), store.cases)
      ensures Elsewhere(old(store.cases), store.cases, c.caseId)
      ensures r.Ok? ==> Stored(store.cases, r.value) && c.findingIds <= r.value.findingIds && r.value.caseId == c.caseId
                        && r.value.tenantId == c.tenantId && r.value.assetIds == c.assetIds
      ensures r.Ok? && request.transition.AddFinding? ==> forall id :: id in request.newFindingIds ==> id in r.value.findingIds
      ensures r.Ok? && request.priority.Some? ==> r.value.priority == request.priority
    {
      hide TransitionCase, ByIntake, Prioritised;
      ghost var before := store.cases;
      var moved := Advance(store, c.caseId, request);
      if moved.Err? { return Err(Failed); }
      AdvanceKeeps(before, findings, c.caseId, request);
      MoveKeepsCase(c, request);
      r := Ok(moved.value);
    }

    /** One ingest that may make `writes` writes before it crashes. */
    method Ingest(raw: RawFinding, draw: Draw, writes: nat) returns (r: Result<Outcome, IntakeError>)
      requires State()
      modifies this`findings, store
      ensures State() && Rises(old(store.cases), store.cases)
      ensures r.Ok? ==> Placed(findings, store.cases, r.value) && Elsewhere(old(store.cases), store.cases, r.value.case_.caseId)
      ensures r.Ok? ==> (r.value.caseCreated <==> r.value.case_.caseId !in old(store.cases))
      ensures r.Ok? ==> AboutAsset(r.value.finding, r.value.case_)
      ensures Assigned(old(findings), raw) && raw.actionable && raw.source.tenantId != "" ==>
                && r.Ok? && IsReplay(old(findings), old(store.cases), raw, r.value)
                && store.Contents() == old(store.Contents()) && findings == old(findings)
    {
      hide Prioritised, MergePriority, Rises, Repeats, Covered, CanonicalAssetId, AboutAsset, Good;
      RisesSame(store.cases);
      ghost var before := store.cases;
      if raw.source.tenantId == "" || !raw.actionable { return Err(NotIngested); }
      var existing := Existing(raw);
      if existing.Some? && existing.value.caseId.Some? {
        CoveredHas(existing.value, store.cases, findings);
        return Ok(Outcome(existing.value, store.cases[existing.value.caseId.value], true, false, false, false));
      }
      NotAssigned(store.cases, findings, existing, raw);
      var left, finding: StoredFinding := writes, StoredFinding("", raw.source, "", "", raw.risk, None);
      if existing.Some? {
        finding := existing.value;
      } else {
        if left == 0 { return Err(Crashed); }
        left := left - 1;
        var kept := StoreFinding(raw, draw);
        if kept.Err? { return Err(kept.error); }
        finding := kept.value;
      }
      if finding.source.provider == "" || finding.source.account == "" || finding.resourceUid == "" { return Err(Failed); }
      var incoming := finding.risk.(assessmentId := draw.riskId);
      var found := CurrentCase(finding, CanonicalAssetId(finding), raw, draw, left > 0);
      if found.Err? { return Err(found.error); }
      var (current, caseCreated) := found.value;
      if caseCreated { left := left - 1; }
      SingleAsset(store.cases, findings, finding, current);
      ghost var middle := store.cases;
      r := Attach(finding, existing.Some?, current, caseCreated, incoming, draw, left);
      RisesTwice(before, middle, store.cases);
    }

    /** The rest of an ingest, once the case is known: the finding, its priority, and the assignment. */
    method Attach(finding: StoredFinding, duplicate: bool, case_: RemediationCase, caseCreated: bool,
                  incoming: RiskAssessment, draw: Draw, writes: nat) returns (r: Result<Outcome, IntakeError>)
      requires State() && Holds(findings, finding) && Stored(store.cases, case_)
      requires incoming == finding.risk.(assessmentId := draw.riskId) && AboutAsset(finding, case_)
      modifies this`findings, store
      ensures State() && Rises(old(store.cases), store.cases) && Elsewhere(old(store.cases), store.cases, case_.caseId)
      ensures r.Ok? ==> Placed(findings, store.cases, r.value) && r.value.case_.caseId == case_.caseId
      ensures r.Ok? ==> AboutAsset(r.value.finding, r.value.case_)
      ensures r.Ok? ==> r.value.caseCreated == caseCreated && r.value.duplicate == duplicate
      ensures r.Ok? ==> findings == old(findings)[finding.findingId := r.value.finding]
      ensures r.Ok? ==> (r.value.findingAttached <==> finding.findingId !in case_.findingIds)
      ensures r.Err? ==> findings == old(findings)
    {
      hide Good, Rises, Prioritised, PriorityMove;
      ghost var first := store.cases;
      RisesSame(first);
      var left, current := writes, case_;
      var attached := finding.findingId !in current.findingIds;
      if attached {
        if left == 0 { return Err(Crashed); }
        left := left - 1;
        var added := AddFindingTo(finding, current, draw);
        if added.Err? { return Err(added.error); }
        current := added.value;
      }
      ghost var second := store.cases;
      var changed := PriorityMove(current, incoming, draw.mergedId).Some?;
      if changed {
        if left == 0 { return Err(Crashed); }
        left := left - 1;
      }
      var ranked := Rank(finding, current, incoming, draw);
      RisesTwice(first, second, store.cases);
      if ranked.Err? { return Err(ranked.error); }
      current := ranked.value;
      if left == 0 { return Err(Crashed); }
      var placed := finding.(caseId := Some(current.caseId));
      AssignKeeps(store.cases, findings, placed);
      findings := findings[placed.findingId := placed];
      r := Ok(Outcome(placed, current, duplicate, caseCreated, attached, changed));
    }

    method AddFindingTo(finding: StoredFinding, current: RemediationCase, draw: Draw)
      returns (r: Result<RemediationCase, IntakeError>)
      requires State() && Stored(store.cases, current)
      modifies store
      ensures State() && Rises(old(store.cases), store.cases) && Elsewhere(old(store.cases), store.cases, current.caseId)
      ensures r.Ok? ==> Stored(store.cases, r.value) && finding.findingId in r.value.findingIds && r.value.caseId == current.caseId
                        && r.value.tenantId == current.tenantId && r.value.assetIds == current.assetIds
    {
      hide Good, Rises, Prioritised;
      var request := Request(AddFinding, draw.addEventId, draw.now, "intake", map[FindingId := finding.findingId],
                             finding.risk.evidenceIds, "", None, None, None, [finding.findingId]);
      r := Move(current, request);
      assert finding.findingId in request.newFindingIds;
    }

    /** Afterwards the score of the case covers the finding. */
    method Rank(finding: StoredFinding, current: RemediationCase, incoming: RiskAssessment, draw: Draw)
      returns (r: Result<RemediationCase, IntakeError>)
      requires State() && Stored(store.cases, current) && finding.findingId in current.findingIds
      requires incoming == finding.risk.(assessmentId := draw.riskId) && AboutAsset(finding, current)
      modifies store
      ensures State() && Rises(old(store.cases), store.cases) && Elsewhere(old(store.cases), store.cases, current.caseId)
      ensures r.Ok? ==> r.value.caseId == current.caseId
      ensures r.Ok? ==> Stored(store.cases, r.value) && Covered(finding.(caseId := Some(r.value.caseId)), store.cases)
    {
      assert Prioritised(current);
      hide Good, Rises, Prioritised, PriorityMove, MergePriority;
      PriorityMoveRises(current, incoming, draw.mergedId);
      var move := PriorityMove(current, incoming, draw.mergedId);
      if move.None? {
        RisesSame(store.cases);
        return Ok(current);
      }
      var request := MoveOf(move.value.0, Some(move.value.1), draw.priorityEventId, draw.now, "");
      r := Move(current, request);
    }
  }
}
