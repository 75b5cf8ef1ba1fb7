/** The in-memory case store and the coordinator that advances a case through it. */
module Workflow {
  import opened Common
  import opened Cases
  import opened CaseLog
  import TextOrder

  datatype StoreError = Conflict | NotFound | NotContiguous | DuplicateEvent | Refused(reason: CaseError)

  /** Cases and their logs, by case id. */
  datatype Table = Table(cases: map<string, RemediationCase>, events: map<string, Log>)

  const EMPTY_TABLE := Table(map[], map[])

  predicate Owns(c: RemediationCase, tenantId: string, assetId: string) {
    c.tenantId == tenantId && assetId in c.assetIds && !c.Terminal()
  }

  /** Active cases of the same tenant that share an asset with `c`. */
  function Conflicts(cases: map<string, RemediationCase>, c: RemediationCase): set<string> {
    set id | id in cases && exists a :: a in c.assetIds && Owns(cases[id], c.tenantId, a)
  }

  function CreateIn(t: Table, c: RemediationCase): Result<Table, StoreError> {
    if c.caseId in t.cases || Conflicts(t.cases, c) != {} then Err(Conflict)
    else Ok(Table(t.cases[c.caseId := c], t.events[c.caseId := []]))
  }

  function AppendTo(t: Table, c: RemediationCase, e: CaseEvent, expectedVersion: nat): Result<Table, StoreError>
    requires t.cases.Keys == t.events.Keys
  {
    if c.caseId !in t.cases then Err(NotFound)
    else if t.cases[c.caseId].version != expectedVersion then Err(Conflict)
    else if e.sequence != expectedVersion + 1 || c.version != e.sequence then Err(NotContiguous)
    else Ok(Table(t.cases[c.caseId := c], t.events[c.caseId := t.events[c.caseId] + [e]]))
  }

  /** The order in which the scan prefers one match over another. */
  predicate Before(a: RemediationCase, b: RemediationCase) {
    || TextOrder.Less(a.updatedAt, b.updatedAt)
    || (a.updatedAt == b.updatedAt && TextOrder.AtMost(a.caseId, b.caseId))
  }

  lemma BeforeTransitive(a: RemediationCase, b: RemediationCase, c: RemediationCase)
    requires Before(a, b) && Before(b, c)
    ensures Before(a, c)
  {
    if TextOrder.Less(a.updatedAt, b.updatedAt) && TextOrder.Less(b.updatedAt, c.updatedAt) {
      TextOrder.LessTransitive(a.updatedAt, b.updatedAt, c.updatedAt);
    }
    if TextOrder.Less(a.caseId, b.caseId) && TextOrder.Less(b.caseId, c.caseId) {
      TextOrder.LessTransitive(a.caseId, b.caseId, c.caseId);
    }
  }

  lemma BeforeTotal(a: RemediationCase, b: RemediationCase)
    ensures Before(a, b) || Before(b, a)
  {
    TextOrder.LessTotal(a.updatedAt, b.updatedAt);
    TextOrder.LessTotal(a.caseId, b.caseId);
  }

  /** The active case the scan finds for an asset: the last match, or none. */
  ghost predicate ScanResult(cases: map<string, RemediationCase>, tenantId: string, assetId: string,
                             found: Option<RemediationCase>)
  {
    match found
    case None => forall id :: id in cases ==> !Owns(cases[id], tenantId, assetId)
    case Some(c) =>
      && (exists id :: id in cases && cases[id] == c && Owns(c, tenantId, assetId))
      && (forall id :: id in cases && Owns(cases[id], tenantId, assetId) ==> Before(cases[id], c))
  }

  /** The scan sees the active cases of the tenant for the asset and no others, and takes the one updated last, by id among
      equals. */
  lemma ScanIs(cases: map<string, RemediationCase>, tenantId: string, assetId: string, found: Option<RemediationCase>)
    requires ScanResult(cases, tenantId, assetId, found)
    ensures found.None? <==>
              forall id :: id in cases && cases[id].tenantId == tenantId && assetId in cases[id].assetIds ==>
                cases[id].state in {Remediated, RolledBack, ClosedNoAction, Rejected}
    ensures found.Some? ==>
              var c := found.value;
              && c in cases.Values && c.tenantId == tenantId && assetId in c.assetIds
              && c.state !in {Remediated, RolledBack, ClosedNoAction, Rejected}
              && forall id :: id in cases && cases[id].tenantId == tenantId && assetId in cases[id].assetIds
                              && cases[id].state !in {Remediated, RolledBack, ClosedNoAction, Rejected} ==>
                   || TextOrder.Less(cases[id].updatedAt, c.updatedAt)
                   || (cases[id].updatedAt == c.updatedAt
                       && (cases[id].caseId == c.caseId || TextOrder.Less(cases[id].caseId, c.caseId)))
  {
    if found.None? {
      forall id | id in cases && cases[id].tenantId == tenantId && assetId in cases[id].assetIds
        ensures cases[id].Terminal()
      {
        assert !Owns(cases[id], tenantId, assetId);
      }
    } else {
      var id :| id in cases && cases[id] == found.value && Owns(found.value, tenantId, assetId);
      forall id | id in cases && cases[id].tenantId == tenantId && assetId in cases[id].assetIds && !cases[id].Terminal()
        ensures Before(cases[id], found.value)
      {
        assert Owns(cases[id], tenantId, assetId);
      }
    }
  }

  class InMemoryCaseStore {
    var cases: map<string, RemediationCase>
    var events: map<string, Log>

    ghost predicate Valid() reads this { cases.Keys == events.Keys }

    ghost function Contents(): Table reads this { Table(cases, events) }

    constructor ()
      ensures Valid() && Contents() == EMPTY_TABLE
    {
      cases, events := map[], map[];
    }

    method Create(c: RemediationCase) returns (r: Result<(), StoreError>)
      requires Valid()
      modifies this
      ensures Valid()
      ensures r.Ok? <==> CreateIn(old(Contents()), c).Ok?
      ensures Contents() == if r.Ok? then CreateIn(old(Contents()), c).value else old(Contents())
    {
      if c.caseId in cases { return Err(Conflict); }
      if Conflicts(cases, c) != {} { return Err(Conflict); }
      cases := cases[c.caseId := c];
      events := events[c.caseId := []];
      return Ok(());
    }

    method Get(caseId: string) returns (r: Result<RemediationCase, StoreError>)
      ensures r == if caseId in cases then Ok(cases[caseId]) else Err(NotFound)
    {
      if caseId !in cases { return Err(NotFound); }
      return Ok(cases[caseId]);
    }

    /** All or nothing: a refused append changes neither the projection nor the log. */
    method Append(c: RemediationCase, e: CaseEvent, expectedVersion: nat) returns (r: Result<(), StoreError>)
      requires Valid()
      modifies this
      ensures Valid()
      ensures r.Ok? <==> AppendTo(old(Contents()), c, e, expectedVersion).Ok?
      ensures r.Err? ==> r.error == AppendTo(old(Contents()), c, e, expectedVersion).error
      ensures Contents() == if r.Ok? then AppendTo(old(Contents()), c, e, expectedVersion).value
                            else old(Contents())
    {
      var current := Get(c.caseId);
      if current.Err? { return Err(current.error); }
      if current.value.version != expectedVersion { return Err(Conflict); }
      if e.sequence != expectedVersion + 1 || c.version != e.sequence { return Err(NotContiguous); }
      events := events[c.caseId := events[c.caseId] + [e]];
      cases := cases[c.caseId := c];
      return Ok(());
    }

    /** Scans every projection and keeps the greatest match. */
    method FindActiveByAsset(tenantId: string, assetId: string) returns (found: Option<RemediationCase>)
      ensures ScanResult(cases, tenantId, assetId, found)
    {
      found := None;
      var rest := cases.Keys;
      while rest != {}
        invariant rest <= cases.Keys
        invariant found.Some? ==>
          exists id :: id in cases && cases[id] == found.value && Owns(found.value, tenantId, assetId)
        invariant forall id :: id in cases && id !in rest && Owns(cases[id], tenantId, assetId) ==>
          found.Some? && Before(cases[id], found.value)
        decreases |rest|
      {
        var id :| id in rest;
        rest := rest - {id};
        var c := cases[id];
        if Owns(c, tenantId, assetId) {
          BeforeTotal(c, c);
          if found.None? {
            found := Some(c);
          } else {
            BeforeTotal(c, found.value);
            if !Before(c, found.value) {
              forall other | other in cases && Before(cases[other], found.value)
                ensures Before(cases[other], c)
              {
                BeforeTransitive(cases[other], found.value, c);
              }
              found := Some(c);
            }
          }
        }
      }
    }
  }

  /** `WorkflowCoordinator.advance`, undisturbed between its read and its append. */
  method Advance(store: InMemoryCaseStore, caseId: string, r: Request)
    returns (result: Result<RemediationCase, StoreError>)
    requires store.Valid()
    requires forall id :: id in store.cases ==> store.cases[id].caseId == id
    modifies store
    ensures store.Valid()
    ensures caseId !in old(store.cases) ==> result == Err(NotFound)
    ensures caseId in old(store.cases) ==>
              match TransitionCase(old(store.cases[caseId]), r)
              case Err(reason) => result == Err(Refused(reason))
              case Ok((next, event)) =>
                && result == Ok(next)
                && store.cases == old(store.cases)[caseId := next]
                && store.events == old(store.events)[caseId := old(store.events)[caseId] + [event]]
    ensures result.Err? ==> store.Contents() == old(store.Contents())
  {
    var current := store.Get(caseId);
    if current.Err? { return Err(current.error); }
    match TransitionCase(current.value, r)
    case Err(reason) => return Err(Refused(reason));
    case Ok((next, event)) =>
      TransitionFrame(current.value, r);
      var appended := store.Append(next, event, current.value.version);
      assert appended.Ok?;  // nobody moved the version in between
      return Ok(next);
  }
}
