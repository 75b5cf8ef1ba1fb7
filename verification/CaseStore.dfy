/** The SQLite case store: tables, and the index of active assets that replaces the scan. */
module CaseStore {
  import opened Common
  import opened Cases
  import opened CaseLog
  import opened Workflow
  import opened Interleaving
  import Ranking

  /** Table rows by primary key; `caseAssets` holds keys only. */
  datatype Tables = Tables(
    cases: map<string, RemediationCase>,
    caseAssets: set<(string, string)>,
    active: map<(string, string), string>,
    events: map<(string, nat), CaseEvent>)

  const EMPTY_TABLES := Tables(map[], {}, map[], map[])

  predicate EventIdTaken(events: map<(string, nat), CaseEvent>, eventId: string) {
    exists key :: key in events && events[key].eventId == eventId
  }

  /** The index rows of one case. */
  function IndexRows(c: RemediationCase): map<(string, string), string> {
    map a | a in c.assetIds :: (c.tenantId, a) := c.caseId
  }

  /** An insertion succeeds when no row breaks a primary key. */
  predicate Insertable(t: Tables, c: RemediationCase) {
    && c.caseId !in t.cases
    && Ranking.Distinct(c.assetIds)
    && (forall a :: a in c.assetIds ==> (c.caseId, a) !in t.caseAssets)
    && (!c.Terminal() ==> forall a :: a in c.assetIds ==> (c.tenantId, a) !in t.active)
  }

  function Inserted(t: Tables, c: RemediationCase): Tables {
    t.(cases := t.cases[c.caseId := c],
       caseAssets := t.caseAssets + (set a | a in c.assetIds :: (c.caseId, a)),
       active := if c.Terminal() then t.active else t.active + IndexRows(c))
  }

  function SqlAppend(t: Tables, c: RemediationCase, e: CaseEvent, expectedVersion: nat): Result<Tables, StoreError> {
    if e.caseId != c.caseId then Err(NotContiguous)
    else if e.sequence != expectedVersion + 1 || c.version != e.sequence then Err(NotContiguous)
    else if c.caseId !in t.cases then Err(NotFound)
    else if t.cases[c.caseId].version != expectedVersion then Err(Conflict)
    else if (e.caseId, e.sequence) in t.events || EventIdTaken(t.events, e.eventId) then Err(DuplicateEvent)
    else Ok(t.(
      cases := t.cases[c.caseId := c],
      events := t.events[(e.caseId, e.sequence) := e],
      active := if c.Terminal() then map key | key in t.active && t.active[key] != c.caseId :: t.active[key]
                else t.active))
  }

  /** The join of the index with the projections. */
  function SqlFind(t: Tables, tenantId: string, assetId: string): Option<RemediationCase> {
    if (tenantId, assetId) in t.active && t.active[(tenantId, assetId)] in t.cases
    then Some(t.cases[t.active[(tenantId, assetId)]])
    else None
  }

  /** Row by row; a duplicate key aborts. */
  method InsertAssetRows(rows: set<(string, string)>, c: RemediationCase) returns (r: Option<set<(string, string)>>)
    ensures r.Some? <==> Ranking.Distinct(c.assetIds) && forall a :: a in c.assetIds ==> (c.caseId, a) !in rows
    ensures r.Some? ==> r.value == rows + (set a | a in c.assetIds :: (c.caseId, a))
  {
    var assets := rows;
    for i := 0 to |c.assetIds|
      invariant Ranking.Distinct(c.assetIds[..i])
      invariant forall j :: 0 <= j < i ==> (c.caseId, c.assetIds[j]) !in rows
      invariant forall row :: row in assets <==> row in rows || (row.0 == c.caseId && row.1 in c.assetIds[..i])
    {
      if (c.caseId, c.assetIds[i]) in assets {
        assert c.assetIds[i] in c.assetIds;
        return None;
      }
      assets := assets + {(c.caseId, c.assetIds[i])};
      assert c.assetIds[..i + 1] == c.assetIds[..i] + [c.assetIds[i]];
    }
    assert c.assetIds[..|c.assetIds|] == c.assetIds;
    return Some(assets);
  }

  /** The index rows of the first assets of a case. */
  function RowsUpTo(c: RemediationCase, n: nat): map<(string, string), string>
    requires n <= |c.assetIds|
  {
    map a | a in c.assetIds[..n] :: (c.tenantId, a) := c.caseId
  }

  /** One more row. */
  lemma NextRow(active: map<(string, string), string>, c: RemediationCase, i: nat)
    requires i < |c.assetIds|
    ensures active + RowsUpTo(c, i + 1) == (active + RowsUpTo(c, i))[(c.tenantId, c.assetIds[i]) := c.caseId]
  {
    assert c.assetIds[..i + 1] == c.assetIds[..i] + [c.assetIds[i]];
    assert RowsUpTo(c, i + 1) == RowsUpTo(c, i)[(c.tenantId, c.assetIds[i]) := c.caseId];
  }

  /** A row is missing exactly if it was missing and none of the first assets is its own. */
  lemma RowMissing(active: map<(string, string), string>, c: RemediationCase, i: nat)
    requires i < |c.assetIds| && Ranking.Distinct(c.assetIds)
    ensures (c.tenantId, c.assetIds[i]) in active + RowsUpTo(c, i) <==> (c.tenantId, c.assetIds[i]) in active
  {
    assert c.assetIds[i] !in c.assetIds[..i];
  }

  /** Row by row; an asset that already has an active case aborts. */
  method InsertIndexRows(active: map<(string, string), string>, c: RemediationCase)
    returns (r: Option<map<(string, string), string>>)
    requires Ranking.Distinct(c.assetIds)
    ensures r.Some? <==> forall a :: a in c.assetIds ==> (c.tenantId, a) !in active
    ensures r.Some? ==> r.value == active + IndexRows(c)
  {
    hide RowsUpTo, Ranking.Distinct;
    var index := active;
    assert active + RowsUpTo(c, 0) == active by { NoRows(active, c); }
    for i := 0 to |c.assetIds|
      invariant forall j :: 0 <= j < i ==> (c.tenantId, c.assetIds[j]) !in active
      invariant index == active + RowsUpTo(c, i)
    {
      RowMissing(active, c, i);
      if (c.tenantId, c.assetIds[i]) in index { return None; }
      NextRow(active, c, i);
      index := index[(c.tenantId, c.assetIds[i]) := c.caseId];
    }
    AllRows(c);
    return Some(index);
  }

  lemma NoRows(active: map<(string, string), string>, c: RemediationCase)
    ensures active + RowsUpTo(c, 0) == active
  {
    assert c.assetIds[..0] == [];
  }

  lemma AllRows(c: RemediationCase)
    ensures RowsUpTo(c, |c.assetIds|) == IndexRows(c)
  {
    assert c.assetIds[..|c.assetIds|] == c.assetIds;
  }

  class SqliteCaseStore {
    var tables: Tables

    constructor ()
      ensures tables == EMPTY_TABLES
    {
      tables := EMPTY_TABLES;
    }

    /** One transaction: the inserts of every table, or none. */
    method Create(c: RemediationCase) returns (r: Result<(), StoreError>)
      modifies this
      ensures r.Ok? <==> Insertable(old(tables), c)
      ensures tables == if r.Ok? then Inserted(old(tables), c) else old(tables)
    {
      if c.caseId in tables.cases { return Err(Conflict); }
      var assets := InsertAssetRows(tables.caseAssets, c);
      if assets.None? { return Err(Conflict); }
      var index := Some(tables.active);
      if !c.Terminal() {
        index := InsertIndexRows(tables.active, c);
      }
      if index.None? { return Err(Conflict); }
      tables := tables.(cases := tables.cases[c.caseId := c], caseAssets := assets.value, active := index.value);
      return Ok(());
    }

    method Get(caseId: string) returns (r: Result<RemediationCase, StoreError>)
      ensures r == if caseId in tables.cases then Ok(tables.cases[caseId]) else Err(NotFound)
    {
      return if caseId in tables.cases then Ok(tables.cases[caseId]) else Err(NotFound);
    }

    /** One transaction, rolled back whole when any statement of it fails. */
    method Append(c: RemediationCase, e: CaseEvent, expectedVersion: nat) returns (r: Result<(), StoreError>)
      modifies this
      ensures SqlAppend(old(tables), c, e, expectedVersion).Err? ==>
                r == Err(SqlAppend(old(tables), c, e, expectedVersion).error) && tables == old(tables)
      ensures SqlAppend(old(tables), c, e, expectedVersion).Ok? ==>
                r.Ok? && tables == SqlAppend(old(tables), c, e, expectedVersion).value
    {
      if e.caseId != c.caseId { return Err(NotContiguous); }
      if e.sequence != expectedVersion + 1 || c.version != e.sequence { return Err(NotContiguous); }
      var before := tables;
      if c.caseId in tables.cases && tables.cases[c.caseId].version == expectedVersion {
        tables := tables.(cases := tables.cases[c.caseId := c]);
      } else {
        return Err(if c.caseId in tables.cases then Conflict else NotFound);
      }
      if (e.caseId, e.sequence) in tables.events || EventIdTaken(tables.events, e.eventId) {
        tables := before;
        return Err(DuplicateEvent);
      }
      tables := tables.(events := tables.events[(e.caseId, e.sequence) := e]);
      if c.Terminal() {
        tables := tables.(active := map key | key in tables.active && tables.active[key] != c.caseId :: tables.active[key]);
      }
      return Ok(());
    }

    method FindActiveByAsset(tenantId: string, assetId: string) returns (found: Option<RemediationCase>)
      ensures found == SqlFind(tables, tenantId, assetId)
    {
      if (tenantId, assetId) in tables.active {
        var id := tables.active[(tenantId, assetId)];
        if id in tables.cases { return Some(tables.cases[id]); }
      }
      return None;
    }
  }

  // ----- The index refines the scan -----

  /** The index holds a row for an asset exactly when an active case owns it. */
  ghost predicate Exact(cases: map<string, RemediationCase>, active: map<(string, string), string>) {
    forall tenantId, assetId, id ::
      (tenantId, assetId) in active && active[(tenantId, assetId)] == id
      <==> id in cases && Owns(cases[id], tenantId, assetId)
  }

  /** Both stores hold the same cases and logs, and the index is exact. */
  ghost predicate Refines(t: Tables, table: Table) {
    && t.cases == table.cases
    && table.cases.Keys == table.events.Keys
    && Exact(t.cases, t.active)
    && (forall id, a :: (id, a) in t.caseAssets ==> id in t.cases)
    && (forall id, q: nat :: (id, q) in t.events <==> id in table.events && 1 <= q <= |table.events[id]|)
    && (forall id, q: nat :: (id, q) in t.events ==> t.events[(id, q)] == table.events[id][q - 1])
  }

  /** With an exact index no asset of a tenant has two active cases. */
  lemma AtMostOneActive(t: Tables, table: Table, tenantId: string, assetId: string, id: string, other: string)
    requires Refines(t, table)
    requires id in table.cases && Owns(table.cases[id], tenantId, assetId)
    requires other in table.cases && Owns(table.cases[other], tenantId, assetId)
    ensures id == other
  {
    assert t.active[(tenantId, assetId)] == id;
  }

  /** The indexed lookup returns what the scan of every projection returns. */
  lemma FindRefinesScan(t: Tables, table: Table, tenantId: string, assetId: string)
    requires Refines(t, table)
    ensures ScanResult(table.cases, tenantId, assetId, SqlFind(t, tenantId, assetId))
    ensures forall found :: ScanResult(table.cases, tenantId, assetId, found) ==>
              found == SqlFind(t, tenantId, assetId)
  {
    var key := (tenantId, assetId);
    if key in t.active {
      var id := t.active[key];
      assert Owns(table.cases[id], tenantId, assetId);
      BeforeTotal(table.cases[id], table.cases[id]);
      forall other | other in table.cases && Owns(table.cases[other], tenantId, assetId)
        ensures other == id
      {
        AtMostOneActive(t, table, tenantId, assetId, id, other);
      }
    }
  }

  /** The unique keys refuse a case exactly when the scan for conflicts does. */
  lemma CreateAgrees(t: Tables, table: Table, c: RemediationCase)
    requires Refines(t, table) && Fresh(c) && Ranking.Distinct(c.assetIds)
    ensures CreateIn(table, c).Ok? <==> Insertable(t, c)
  {
    if c.caseId !in t.cases {
      forall a | a in c.assetIds && (c.tenantId, a) in t.active
        ensures Conflicts(table.cases, c) != {}
      {
        assert t.active[(c.tenantId, a)] in Conflicts(table.cases, c);
      }
      if Conflicts(table.cases, c) != {} {
        var id :| id in Conflicts(table.cases, c);
        var a :| a in c.assetIds && Owns(table.cases[id], c.tenantId, a);
        assert t.active[(c.tenantId, a)] == id;
      }
    }
  }

  lemma IndexAfterCreate(t: Tables, c: RemediationCase)
    requires Exact(t.cases, t.active) && Fresh(c) && Insertable(t, c)
    ensures Exact(Inserted(t, c).cases, Inserted(t, c).active)
  {
    var t' := Inserted(t, c);
    forall tenantId, assetId, id
      ensures (tenantId, assetId) in t'.active && t'.active[(tenantId, assetId)] == id
              <==> id in t'.cases && Owns(t'.cases[id], tenantId, assetId)
    {
      var key := (tenantId, assetId);
      assert key in IndexRows(c) <==> tenantId == c.tenantId && assetId in c.assetIds;
      assert key in t'.active <==> key in t.active || key in IndexRows(c);
    }
  }

  lemma CreateRefines(t: Tables, table: Table, c: RemediationCase)
    requires Refines(t, table) && Fresh(c) && Ranking.Distinct(c.assetIds)
    ensures CreateIn(table, c).Ok? <==> Insertable(t, c)
    ensures Insertable(t, c) ==> Refines(Inserted(t, c), CreateIn(table, c).value)
  {
    CreateAgrees(t, table, c);
    if Insertable(t, c) {
      IndexAfterCreate(t, c);
      hide Exact, IndexRows, Conflicts, Ranking.Distinct;
    }
  }

  /** Appending the transition of a current projection, under an unused event id. */
  lemma AppendRefines(t: Tables, table: Table, seen: RemediationCase, r: Request)
    requires Refines(t, table)
    requires forall id :: id in table.cases ==>
               table.cases[id].caseId == id && table.cases[id].version == |table.events[id]|
    requires SnapshotSound(table.cases, seen)
    requires TransitionCase(seen, r).Ok? && !EventIdTaken(t.events, r.eventId)
    ensures var (next, event) := TransitionCase(seen, r).value;
            var here, there := SqlAppend(t, next, event, seen.version), AppendTo(table, next, event, seen.version);
            && (here.Ok? <==> there.Ok?)
            && (here.Ok? ==> Refines(here.value, there.value))
  {
    hide TransitionCase;
    TransitionFrame(seen, r);
    EventIdOfRequest(seen, r);
    var (next, event) := TransitionCase(seen, r).value;
    if AppendTo(table, next, event, seen.version).Ok? {
      assert seen == table.cases[seen.caseId];
      var t' := SqlAppend(t, next, event, seen.version).value;
      forall tenantId, assetId, id
        ensures (tenantId, assetId) in t'.active && t'.active[(tenantId, assetId)] == id
                <==> id in t'.cases && Owns(t'.cases[id], tenantId, assetId)
      {
        assert id in t.cases && id != seen.caseId ==> t'.cases[id] == t.cases[id];
        assert Owns(seen, tenantId, assetId) && !next.Terminal() ==> Owns(next, tenantId, assetId);
        assert t'.active == if next.Terminal() then
            map key | key in t.active && t.active[key] != next.caseId :: t.active[key] else t.active;
      }
    }
  }

  lemma EventIdOfRequest(c: RemediationCase, r: Request)
    requires TransitionCase(c, r).Ok?
    ensures TransitionCase(c, r).value.1.eventId == r.eventId
  {
  }

  // ----- Every reachable store -----

  datatype SqlSystem = SqlSystem(tables: Tables, pending: map<nat, RemediationCase>)

  /** The same atomic steps, taken by the SQLite store. */
  function SqlNext(s: SqlSystem, step: Step): SqlSystem {
    match step
    case OpenStep(caseId, tenantId, findingIds, assetIds, serviceIds, now) =>
      (match OpenCase(caseId, tenantId, findingIds, assetIds, serviceIds, now)
       case Err(_) => s
       case Ok(c) => if Insertable(s.tables, c) then s.(tables := Inserted(s.tables, c)) else s)
    case ReadStep(worker, id) =>
      if id in s.tables.cases then s.(pending := s.pending[worker := s.tables.cases[id]])
      else s.(pending := s.pending - {worker})
    case AppendStep(worker, r) =>
      var done := s.(pending := s.pending - {worker});
      if worker !in s.pending then done
      else
        match TransitionCase(s.pending[worker], r)
        case Err(_) => done
        case Ok((next, event)) =>
          match SqlAppend(s.tables, next, event, s.pending[worker].version)
          case Err(_) => done
          case Ok(tables) => done.(tables := tables)
  }

  function SqlExecute(steps: seq<Step>): SqlSystem {
    if steps == [] then SqlSystem(EMPTY_TABLES, map[])
    else SqlNext(SqlExecute(steps[..|steps| - 1]), steps[|steps| - 1])
  }

  /** Intake supplies distinct asset ids, and event ids are never reused. */
  ghost predicate ProperIds(steps: seq<Step>) {
    && (forall i :: 0 <= i < |steps| && steps[i].OpenStep? ==> Ranking.Distinct(steps[i].assetIds))
    && (forall i, j :: 0 <= i < j < |steps| && steps[i].AppendStep? && steps[j].AppendStep? ==>
          steps[i].request.eventId != steps[j].request.eventId)
  }

  /** Every stored event id was supplied by one of the steps. */
  ghost predicate IdsFrom(events: map<(string, nat), CaseEvent>, steps: seq<Step>) {
    forall key :: key in events ==>
      exists i :: 0 <= i < |steps| && steps[i].AppendStep? && steps[i].request.eventId == events[key].eventId
  }

  lemma IdsFromLonger(events: map<(string, nat), CaseEvent>, steps: seq<Step>, step: Step)
    requires IdsFrom(events, steps)
    ensures IdsFrom(events, steps + [step])
  {
    forall key | key in events
      ensures exists i :: 0 <= i < |steps + [step]| && (steps + [step])[i].AppendStep?
                && (steps + [step])[i].request.eventId == events[key].eventId
    {
      var i :| 0 <= i < |steps| && steps[i].AppendStep? && steps[i].request.eventId == events[key].eventId;
      assert (steps + [step])[i] == steps[i];
    }
  }

  lemma UnusedId(events: map<(string, nat), CaseEvent>, steps: seq<Step>, step: Step)
    requires IdsFrom(events, steps) && step.AppendStep? && ProperIds(steps + [step])
    ensures !EventIdTaken(events, step.request.eventId)
  {
    var longer := steps + [step];
    forall key | key in events ensures events[key].eventId != step.request.eventId {
      var i :| 0 <= i < |steps| && steps[i].AppendStep? && steps[i].request.eventId == events[key].eventId;
      assert longer[i] == steps[i] && longer[|steps|] == step;
    }
  }

  ghost predicate Agree(sql: SqlSystem, memory: System, steps: seq<Step>) {
    && Refines(sql.tables, memory.table)
    && sql.pending == memory.pending
    && IdsFrom(sql.tables.events, steps)
  }

  lemma VersionsCount(s: System)
    requires Sound(s)
    ensures forall id :: id in s.table.cases ==> s.table.cases[id].version == |s.table.events[id]|
  {
    forall id | id in s.table.cases ensures s.table.cases[id].version == |s.table.events[id]| {
      ReplayIsProjection(s.table.cases[id], s.table.events[id]);
    }
  }

  lemma AgreeNext(sql: SqlSystem, memory: System, steps: seq<Step>, step: Step)
    requires Agree(sql, memory, steps) && Sound(memory) && ProperIds(steps + [step])
    ensures Agree(SqlNext(sql, step), Next(memory, step), steps + [step])
  {
    hide TransitionCase, Produced, Refines, IdsFrom, ProperIds, SqlAppend, AppendTo, Inserted, CreateIn, Insertable;
    SameCases(sql.tables, memory.table);
    IdsFromLonger(sql.tables.events, steps, step);
    match step
    case OpenStep(caseId, tenantId, findingIds, assetIds, serviceIds, now) =>
      var result := OpenCase(caseId, tenantId, findingIds, assetIds, serviceIds, now);
      if result.Ok? {
        ProperAssets(steps, step);
        CreateRefines(sql.tables, memory.table, result.value);
        InsertedEvents(sql.tables, result.value);
      }
    case ReadStep(worker, id) =>
    case AppendStep(worker, r) =>
      if worker in sql.pending && TransitionCase(sql.pending[worker], r).Ok? {
        VersionsCount(memory);
        UnusedId(sql.tables.events, steps, step);
        AppendRefines(sql.tables, memory.table, sql.pending[worker], r);
        var (next, event) := TransitionCase(sql.pending[worker], r).value;
        if SqlAppend(sql.tables, next, event, sql.pending[worker].version).Ok? {
          AppendedIds(sql.tables, sql.pending[worker], r, steps);
        }
      }
  }

  lemma SameCases(t: Tables, table: Table)
    requires Refines(t, table)
    ensures t.cases == table.cases
  {
  }

  lemma InsertedEvents(t: Tables, c: RemediationCase)
    ensures Inserted(t, c).events == t.events
  {
  }

  lemma ProperAssets(steps: seq<Step>, step: Step)
    requires ProperIds(steps + [step]) && step.OpenStep?
    ensures Ranking.Distinct(step.assetIds)
  {
    assert (steps + [step])[|steps|] == step;
  }

  lemma AppendedIds(t: Tables, seen: RemediationCase, r: Request, steps: seq<Step>)
    requires IdsFrom(t.events, steps) && TransitionCase(seen, r).Ok?
    requires var (next, event) := TransitionCase(seen, r).value; SqlAppend(t, next, event, seen.version).Ok?
    ensures var (next, event) := TransitionCase(seen, r).value;
            forall author: nat :: IdsFrom(SqlAppend(t, next, event, seen.version).value.events,
                                          steps + [AppendStep(author, r)])
  {
    hide TransitionCase;
    EventIdOfRequest(seen, r);
    var (next, event) := TransitionCase(seen, r).value;
    var events' := SqlAppend(t, next, event, seen.version).value.events;
    forall author: nat ensures IdsFrom(events', steps + [AppendStep(author, r)]) {
      var longer := steps + [AppendStep(author, r)];
      IdsFromLonger(t.events, steps, AppendStep(author, r));
      forall key | key in events'
        ensures exists i :: 0 <= i < |longer| && longer[i].AppendStep? && longer[i].request.eventId == events'[key].eventId
      {
        if key == (event.caseId, event.sequence) {
          assert longer[|steps|].request.eventId == events'[key].eventId;
        } else {
          assert key in t.events;
        }
      }
    }
  }

  lemma ProperPrefix(steps: seq<Step>)
    requires steps != [] && ProperIds(steps)
    ensures ProperIds(steps[..|steps| - 1])
  {
  }

  /** In every interleaving the SQLite store and its index agree with the scanning store. */
  lemma {:induction false} IndexRefinesScan(steps: seq<Step>)
    requires ProperIds(steps)
    ensures Agree(SqlExecute(steps), Execute(steps), steps)
  {
    hide Next, SqlNext, ProperIds;
    if steps != [] {
      var shorter := steps[..|steps| - 1];
      ProperPrefix(steps);
      IndexRefinesScan(shorter);
      SoundAlways(shorter);
      assert shorter + [steps[|steps| - 1]] == steps;
      AgreeNext(SqlExecute(shorter), Execute(shorter), shorter, steps[|steps| - 1]);
    }
  }
}
