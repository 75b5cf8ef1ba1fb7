/** Many workers advancing cases through one store: reads and appends interleave freely. */
module Interleaving {
  import opened Common
  import opened Cases
  import opened CaseShape
  import opened CaseLog
  import opened Workflow

  /** The store, and for each worker inside `advance` the projection it has read. */
  datatype System = System(table: Table, pending: map<nat, RemediationCase>)

  datatype Step =
    | OpenStep(caseId: string, tenantId: string, findingIds: seq<string>, assetIds: seq<string>,
               serviceIds: seq<string>, now: string)
    | ReadStep(worker: nat, id: string)
    | AppendStep(author: nat, request: Request)

  const EMPTY := System(EMPTY_TABLE, map[])

  predicate Keyed(s: System) { s.table.cases.Keys == s.table.events.Keys }

  /** What an append step by `worker` would store, when it is accepted. */
  function Appended(s: System, worker: nat, r: Request): Result<(RemediationCase, CaseEvent, Table), StoreError>
    requires Keyed(s)
  {
    if worker !in s.pending then Err(NotFound)
    else
      var seen := s.pending[worker];
      match TransitionCase(seen, r)
      case Err(reason) => Err(Refused(reason))
      case Ok((next, event)) =>
        match AppendTo(s.table, next, event, seen.version)
        case Err(e) => Err(e)
        case Ok(table) => Ok((next, event, table))
  }

  /** One atomic step; a step that raises leaves the store as it was. */
  function Next(s: System, step: Step): (s': System)
    requires Keyed(s)
    ensures Keyed(s')
  {
    match step
    case OpenStep(caseId, tenantId, findingIds, assetIds, serviceIds, now) =>
      (match OpenCase(caseId, tenantId, findingIds, assetIds, serviceIds, now)
       case Err(_) => s
       case Ok(c) =>
         match CreateIn(s.table, c)
         case Err(_) => s
         case Ok(table) => s.(table := table))
    case ReadStep(worker, id) =>
      if id in s.table.cases then s.(pending := s.pending[worker := s.table.cases[id]])
      else s.(pending := s.pending - {worker})
    case AppendStep(worker, r) =>
      var done := s.(pending := s.pending - {worker});
      match Appended(s, worker, r)
      case Err(_) => done
      case Ok((next, event, table)) => done.(table := table)
  }

  function Execute(steps: seq<Step>): (s: System)
    ensures Keyed(s)
  {
    if steps == [] then EMPTY else Next(Execute(steps[..|steps| - 1]), steps[|steps| - 1])
  }

  /** The events accepted by the store, over all cases, in the order they were stored. */
  function Accepted(steps: seq<Step>): Log {
    if steps == [] then []
    else
      var stored := Stored(Execute(steps[..|steps| - 1]), steps[|steps| - 1]);
      Accepted(steps[..|steps| - 1]) + (if stored.Some? then [stored.value] else [])
  }

  function Only(events: Log, caseId: string): Log {
    if events == [] then []
    else
      var shorter := Only(events[..|events| - 1], caseId);
      if events[|events| - 1].caseId == caseId then shorter + [events[|events| - 1]] else shorter
  }

  lemma OnlyExtends(events: Log, e: CaseEvent, caseId: string)
    ensures Only(events + [e], caseId) ==
            if e.caseId == caseId then Only(events, caseId) + [e] else Only(events, caseId)
  {
    assert (events + [e])[..|events + [e]| - 1] == events;
  }

  /** A read is never newer than the store, and equal to it when no append came between. */
  predicate SnapshotSound(cases: map<string, RemediationCase>, seen: RemediationCase) {
    && seen.caseId in cases
    && seen.version <= cases[seen.caseId].version
    && (seen.version == cases[seen.caseId].version ==> seen == cases[seen.caseId])
  }

  ghost predicate Sound(s: System) {
    && Keyed(s)
    && (forall id :: id in s.table.cases ==>
          s.table.cases[id].caseId == id && Produced(s.table.cases[id], s.table.events[id]))
    && (forall w :: w in s.pending ==> SnapshotSound(s.table.cases, s.pending[w]))
  }

  /** An accepted append applied its transition to the projection then stored. */
  lemma AppendedIsCurrent(s: System, worker: nat, r: Request)
    requires Sound(s) && Appended(s, worker, r).Ok?
    ensures var c := s.pending[worker];
            var (next, event, table) := Appended(s, worker, r).value;
            && c.caseId in s.table.cases && s.table.cases[c.caseId] == c
            && TransitionCase(c, r) == Ok((next, event))
            && next.caseId == event.caseId == c.caseId
            && next.version == c.version + 1
            && table == Table(s.table.cases[c.caseId := next],
                              s.table.events[c.caseId := s.table.events[c.caseId] + [event]])
  {
    TransitionFrame(s.pending[worker], r);
  }

  lemma SoundNext(s: System, step: Step)
    requires Sound(s)
    ensures Sound(Next(s, step))
  {
    hide TransitionCase, Produced;
    match step
    case OpenStep(caseId, tenantId, findingIds, assetIds, serviceIds, now) =>
      var result := OpenCase(caseId, tenantId, findingIds, assetIds, serviceIds, now);
      if result.Ok? { ProducedFresh(result.value); }
    case ReadStep(worker, id) =>
    case AppendStep(worker, r) =>
      if Appended(s, worker, r).Ok? {
        AppendedIsCurrent(s, worker, r);
        ProducedStep(s.pending[worker], s.table.events[s.pending[worker].caseId], r);
      }
  }

  lemma {:induction false} SoundAlways(steps: seq<Step>)
    ensures Sound(Execute(steps))
  {
    if steps != [] {
      SoundAlways(steps[..|steps| - 1]);
      SoundNext(Execute(steps[..|steps| - 1]), steps[|steps| - 1]);
    }
  }

  /**
   * In every interleaving a stored case is the result of accepted transitions one after another:
   * its log is gapless and chained, the projection is the fold of the log, and its shape holds.
   */
  lemma Linearised(steps: seq<Step>, id: string)
    requires id in Execute(steps).table.cases
    ensures var c, events := Execute(steps).table.cases[id], Execute(steps).table.events[id];
            && Produced(c, events)
            && Linked(events)
            && c.version == |events|
            && Replay(c.createdAt, events) == ViewOf(c)
            && Shape(c)
            && Starts(events) == if Rank(c.Effective()) == 9 then 1 else 0
  {
    SoundAlways(steps);
    var c, events := Execute(steps).table.cases[id], Execute(steps).table.events[id];
    ReplayIsProjection(c, events);
    StartsFromRank(c, events);
    ProducedShape(c, events);
  }

  lemma ProducedShape(c: RemediationCase, events: Log)
    requires Produced(c, events)
    ensures Shape(c)
  {
    var c0: RemediationCase, rs: seq<Request> :| Runs(c0, rs) && Run(c0, rs) == Ok((c, events));
    RunShape(c0, rs);
  }

  /** The event a step stores, if it stores one. */
  function Stored(s: System, step: Step): Option<CaseEvent>
    requires Keyed(s)
  {
    if step.AppendStep? && Appended(s, step.author, step.request).Ok?
    then Some(Appended(s, step.author, step.request).value.1)
    else None
  }

  /** A step adds its stored event to one log, or leaves every log, or opens an empty one. */
  lemma LogAfter(s: System, step: Step, id: string)
    requires Sound(s) && id in Next(s, step).table.cases
    ensures var after := Next(s, step).table.events[id];
            if id !in s.table.cases then after == [] && Stored(s, step).None?
            else if Stored(s, step).Some? && Stored(s, step).value.caseId == id then
              after == s.table.events[id] + [Stored(s, step).value]
            else after == s.table.events[id]
  {
    hide TransitionCase, Produced;
    if step.AppendStep? && Appended(s, step.author, step.request).Ok? {
      AppendedIsCurrent(s, step.author, step.request);
    }
  }

  lemma CasesPersist(s: System, step: Step, id: string)
    requires Sound(s) && id in s.table.cases
    ensures id in Next(s, step).table.cases
  {
    hide TransitionCase, Produced;
  }

  function LogIn(s: System, id: string): Log
    requires Keyed(s)
  {
    if id in s.table.cases then s.table.events[id] else []
  }

  lemma LogInNext(s: System, step: Step, id: string, before: Log)
    requires Sound(s) && LogIn(s, id) == Only(before, id)
    ensures var stored := Stored(s, step);
            LogIn(Next(s, step), id) == Only(before + (if stored.Some? then [stored.value] else []), id)
  {
    hide Next, Appended, Stored, Only, Produced;
    var stored := Stored(s, step);
    if id in s.table.cases { CasesPersist(s, step, id); }
    if id in Next(s, step).table.cases { LogAfter(s, step, id); }
    if stored.Some? {
      StoredIsKnown(s, step);
      OnlyExtends(before, stored.value, id);
    } else {
      assert before + [] == before;
    }
  }

  /** No update is lost: each log is exactly the accepted events of its case, in storage order. */
  lemma {:induction false} NoUpdateLost(steps: seq<Step>, id: string)
    ensures LogIn(Execute(steps), id) == Only(Accepted(steps), id)
  {
    hide Next, Stored;
    if steps != [] {
      var shorter := steps[..|steps| - 1];
      SoundAlways(shorter);
      NoUpdateLost(shorter, id);
      LogInNext(Execute(shorter), steps[|steps| - 1], id, Accepted(shorter));
    }
  }

  lemma StoredIsKnown(s: System, step: Step)
    requires Sound(s) && Stored(s, step).Some?
    ensures Stored(s, step).value.caseId in s.table.cases
  {
    AppendedIsCurrent(s, step.author, step.request);
  }
}
