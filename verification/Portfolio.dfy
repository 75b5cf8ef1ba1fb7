/** The fleet queue: which approved windows are free of collisions with cases ranked above them. */
module Portfolio {
  import opened Common
  import opened Cases
  import opened Ranking
  import TextOrder

  datatype Policy = Policy(parallel: nat, criticalPenalty: real, exposureBonus: real)

  datatype Status =
    | WindowConflict | CandidateWindowConflict | Scheduled | AwaitingPlan | AwaitingSreReview | AwaitingWindow
    | AwaitingRollbackReview | AssemblingHumanReview | AwaitingHumanApproval

  /** What the queue is asked with; `instant` reads a creation time and `exposed` a risk factor. */
  datatype Query = Query(criticality: map<string, real>, policy: Policy, instant: string -> int, exposed: string -> bool)

  datatype Entry = Entry(effective: real, score: real, created: int, case_: RemediationCase)

  datatype Item = Item(rank: nat, case_: RemediationCase, effective: real, status: Status, conflicts: seq<string>)

  predicate InQueue(c: RemediationCase) {
    && c.priority.Some?
    && c.state in {Validated, PlanReady, SreApproved, WindowSelected, RollbackReady, AwaitingApproval, Approved}
  }

  predicate Overlap(a: RemediationCase, b: RemediationCase) {
    && a.changeWindow.Some? && b.changeWindow.Some?
    && a.changeWindow.value.startsAt < b.changeWindow.value.endsAt
    && b.changeWindow.value.startsAt < a.changeWindow.value.endsAt
  }

  predicate SharesService(a: RemediationCase, b: RemediationCase) {
    exists s :: s in a.serviceIds && s in b.serviceIds
  }

  /** The higher case blocks the window of the lower one. */
  predicate Collides(lower: RemediationCase, higher: RemediationCase, policy: Policy) {
    Overlap(lower, higher) && (SharesService(lower, higher) || policy.parallel == 1)
  }

  /** The largest criticality among the services; a service without one weighs nothing. */
  function ServiceWeight(services: seq<string>, criticality: map<string, real>): real {
    if services == [] then 0.0
    else
      var own := if services[0] in criticality then criticality[services[0]] else 0.0;
      if |services| == 1 then own
      else
        var rest := ServiceWeight(services[1..], criticality);
        if own >= rest then own else rest
  }

  /** A weight no service exceeds and one has; zero without services. */
  predicate Heaviest(services: seq<string>, criticality: map<string, real>, weight: real) {
    if services == [] then weight == 0.0
    else
      && (forall s :: s in services ==> (if s in criticality then criticality[s] else 0.0) <= weight)
      && (exists s :: s in services && (if s in criticality then criticality[s] else 0.0) == weight)
  }

  lemma {:induction false} WeightIsHeaviest(services: seq<string>, criticality: map<string, real>)
    ensures Heaviest(services, criticality, ServiceWeight(services, criticality))
  {
    if services != [] {
      var own := if services[0] in criticality then criticality[services[0]] else 0.0;
      assert services == [services[0]] + services[1..];
      assert services[0] in services;
      WeightIsHeaviest(services[1..], criticality);
      assert |services| > 1 ==> forall s :: s in services[1..] ==> s in services;
    }
  }

  function Scored(c: RemediationCase, q: Query): Entry
    requires c.priority.Some?
  {
    var exposure := exists f :: f in c.priority.value.factors && q.exposed(f);
    var effective := c.priority.value.score + (if exposure then q.policy.exposureBonus else 0.0)
                     - q.policy.criticalPenalty * ServiceWeight(c.serviceIds, q.criticality);
    Entry(effective, c.priority.value.score, q.instant(c.createdAt), c)
  }

  /** The ranking: by effective priority, then by score, then the older case, then the case id. */
  predicate Ahead(a: Entry, b: Entry) {
    a.effective > b.effective || (a.effective == b.effective &&
    (a.score > b.score || (a.score == b.score &&
    (a.created < b.created || (a.created == b.created && TextOrder.AtMost(a.case_.caseId, b.case_.caseId))))))
  }

  lemma AheadIsTotal()
    ensures TotalOrder(Ahead)
  {
    forall a, b ensures Ahead(a, b) || Ahead(b, a) { TextOrder.LessTotal(a.case_.caseId, b.case_.caseId); }
    forall a, b, c | Ahead(a, b) && Ahead(b, c) ensures Ahead(a, c) {
      var x, y, z := a.case_.caseId, b.case_.caseId, c.case_.caseId;
      if TextOrder.Less(x, y) && TextOrder.Less(y, z) { TextOrder.LessTransitive(x, y, z); }
    }
  }

  function Entries(cases: seq<RemediationCase>, q: Query): seq<Entry> {
    if cases == [] then []
    else EntryOf(cases[0], q) + Entries(cases[1..], q)
  }

  function EntryOf(c: RemediationCase, q: Query): seq<Entry> { if InQueue(c) then [Scored(c, q)] else [] }

  lemma {:induction false} EntriesAre(cases: seq<RemediationCase>, q: Query, e: Entry)
    ensures e in Entries(cases, q) <==> e.case_ in cases && InQueue(e.case_) && e == Scored(e.case_, q)
  {
    if cases != [] { EntriesAre(cases[1..], q, e); }
  }

  function ConflictsOf(scored: seq<Entry>, index: nat, upto: nat, policy: Policy): seq<string>
    requires upto <= index < |scored|
  {
    if upto == 0 then []
    else
      var earlier, higher := ConflictsOf(scored, index, upto - 1, policy), scored[upto - 1].case_;
      if Collides(scored[index].case_, higher, policy) then earlier + [higher.caseId] else earlier
  }

  /** The status of a case for whether it has conflicts. */
  function StatusOf(c: RemediationCase, conflicted: bool): Status {
    if conflicted && c.state.Approved? then WindowConflict
    else if conflicted && c.changeWindow.Some? then CandidateWindowConflict
    else if c.state.Approved? && c.changeWindow.Some? then Scheduled
    else if c.state.Validated? then AwaitingPlan
    else if c.state.PlanReady? then AwaitingSreReview
    else if c.state.SreApproved? then AwaitingWindow
    else if c.state.WindowSelected? then AwaitingRollbackReview
    else if c.state.RollbackReady? then AssemblingHumanReview
    else AwaitingHumanApproval
  }

  function ItemAt(scored: seq<Entry>, index: nat, policy: Policy): Item
    requires index < |scored|
  {
    var conflicts := ConflictsOf(scored, index, index, policy);
    Item(index + 1, scored[index].case_, scored[index].effective, StatusOf(scored[index].case_, conflicts != []), conflicts)
  }

  function QueueOf(cases: seq<RemediationCase>, q: Query): seq<Item> {
    var scored := Sort(Entries(cases, q), Ahead);
    seq(|scored|, i requires 0 <= i < |scored| => ItemAt(scored, i, q.policy))
  }

  method Queue(cases: seq<RemediationCase>, q: Query) returns (items: seq<Item>)
    ensures items == QueueOf(cases, q)
  {
    var scored := Sort(Entries(cases, q), Ahead);
    items := [];
    for index := 0 to |scored|
      invariant |items| == index && forall i :: 0 <= i < index ==> items[i] == ItemAt(scored, i, q.policy)
    {
      var case_ := scored[index].case_;
      var conflicts: seq<string> := [];
      for i := 0 to index
        invariant conflicts == ConflictsOf(scored, index, i, q.policy)
      {
        var higher := scored[i].case_;
        if Collides(case_, higher, q.policy) { conflicts := conflicts + [higher.caseId]; }
      }
      items := items + [Item(index + 1, case_, scored[index].effective, StatusOf(case_, conflicts != []), conflicts)];
    }
  }

  /** The queue is an arrangement of the entries in the order of the ranking. */
  lemma QueueIsRanking(cases: seq<RemediationCase>, q: Query)
    ensures var scored := Sort(Entries(cases, q), Ahead);
            && |QueueOf(cases, q)| == |scored| == |Entries(cases, q)|
            && (forall i :: 0 <= i < |scored| ==> QueueOf(cases, q)[i].case_ == scored[i].case_)
            && Sorted(scored, Ahead) && multiset(scored) == multiset(Entries(cases, q))
  {
    hide Ahead, Entries, Sort, Sorted, ConflictsOf, StatusOf;
    AheadIsTotal();
    SortSorts(Entries(cases, q), Ahead);
  }

  /** Every item of the queue is an eligible case. */
  lemma QueueHolds(cases: seq<RemediationCase>, q: Query, i: nat)
    requires i < |QueueOf(cases, q)|
    ensures QueueOf(cases, q)[i].case_ in cases && InQueue(QueueOf(cases, q)[i].case_)
    ensures var c := QueueOf(cases, q)[i].case_;
            && c.priority.Some?
            && c.state in {Validated, PlanReady, SreApproved, WindowSelected, RollbackReady, AwaitingApproval, Approved}
  {
    QueueIsRanking(cases, q);
    hide QueueOf, Ahead, Entries, Sort, Sorted;
    var scored := Sort(Entries(cases, q), Ahead);
    assert scored[i] in multiset(scored);
    EntriesAre(cases, q, scored[i]);
  }

  /** Every eligible case is in the queue. */
  lemma QueueMissesNone(cases: seq<RemediationCase>, q: Query, c: RemediationCase)
    requires c in cases && c.priority.Some?
    requires c.state in {Validated, PlanReady, SreApproved, WindowSelected, RollbackReady, AwaitingApproval, Approved}
    ensures exists i :: 0 <= i < |QueueOf(cases, q)| && QueueOf(cases, q)[i].case_ == c
  {
    assert InQueue(c);
    QueueIsRanking(cases, q);
    hide QueueOf, Ahead, Entries, Sort, Sorted, InQueue;
    var scored := Sort(Entries(cases, q), Ahead);
    EntriesAre(cases, q, Scored(c, q));
    assert Scored(c, q) in multiset(Entries(cases, q));
    var i :| 0 <= i < |scored| && scored[i] == Scored(c, q);
    assert QueueOf(cases, q)[i].case_ == c;
  }

  /** The score an item is ranked by: that of the case, raised when a factor is exposed, lowered by the heaviest of its
      services. */
  lemma ItemScore(cases: seq<RemediationCase>, q: Query, i: nat)
    requires i < |QueueOf(cases, q)|
    ensures var item := QueueOf(cases, q)[i];
            && item.rank == i + 1 && item.case_.priority.Some?
            && var risk := item.case_.priority.value;
            var bonus := if exists f :: f in risk.factors && q.exposed(f) then q.policy.exposureBonus else 0.0;
            exists weight ::
              && Heaviest(item.case_.serviceIds, q.criticality, weight)
              && item.effective == risk.score + bonus - q.policy.criticalPenalty * weight
  {
    QueueIsRanking(cases, q);
    hide Ahead, Entries, Sort, Sorted, InQueue, ConflictsOf, Heaviest;
    var scored := Sort(Entries(cases, q), Ahead);
    assert scored[i] in multiset(scored);
    EntriesAre(cases, q, scored[i]);
    WeightIsHeaviest(scored[i].case_.serviceIds, q.criticality);
    ItemHasPriority(cases, q, i);
    var c := scored[i].case_;
    var weight := ServiceWeight(c.serviceIds, q.criticality);
    var bonus := if exists f :: f in c.priority.value.factors && q.exposed(f) then q.policy.exposureBonus else 0.0;
    assert scored[i].effective == c.priority.value.score + bonus - q.policy.criticalPenalty * weight;
  }

  lemma ItemHasPriority(cases: seq<RemediationCase>, q: Query, i: nat)
    requires i < |QueueOf(cases, q)|
    ensures QueueOf(cases, q)[i].case_.priority.Some?
  {
    QueueHolds(cases, q, i);
    hide QueueOf;
  }

  /** Of two items the first is ahead: by effective score, then by the score of the case, then by age, then by id. */
  lemma ItemsInOrder(cases: seq<RemediationCase>, q: Query, i: nat, j: nat)
    requires i < j < |QueueOf(cases, q)|
    ensures var a, b := QueueOf(cases, q)[i], QueueOf(cases, q)[j];
            && a.case_.priority.Some? && b.case_.priority.Some?
            && var (s, t) := (a.case_.priority.value.score, b.case_.priority.value.score);
            && var (early, late) := (q.instant(a.case_.createdAt), q.instant(b.case_.createdAt));
            || a.effective > b.effective
            || (a.effective == b.effective && s > t)
            || (a.effective == b.effective && s == t && early < late)
            || (a.effective == b.effective && s == t && early == late
                && (a.case_.caseId == b.case_.caseId || TextOrder.Less(a.case_.caseId, b.case_.caseId)))
  {
    QueueIsRanking(cases, q);
    ItemHasPriority(cases, q, i);
    ItemHasPriority(cases, q, j);
    hide Entries, Sort, InQueue, ConflictsOf;
    var scored := Sort(Entries(cases, q), Ahead);
    assert scored[i] in multiset(scored) && scored[j] in multiset(scored);
    EntriesAre(cases, q, scored[i]);
    EntriesAre(cases, q, scored[j]);
    assert Ahead(scored[i], scored[j]);
  }

  /** Without conflicts the status of an item tells the state of its case, and only the approved ones are scheduled. */
  lemma StatusTells(cases: seq<RemediationCase>, q: Query, i: nat)
    requires i < |QueueOf(cases, q)| && QueueOf(cases, q)[i].conflicts == []
    ensures var status, c := QueueOf(cases, q)[i].status, QueueOf(cases, q)[i].case_;
            && (status == AwaitingPlan <==> c.state == Validated)
            && (status == AwaitingSreReview <==> c.state == PlanReady)
            && (status == AwaitingWindow <==> c.state == SreApproved)
            && (status == AwaitingRollbackReview <==> c.state == WindowSelected)
            && (status == AssemblingHumanReview <==> c.state == RollbackReady)
            && (status == Status.Scheduled <==> c.state == Approved && c.changeWindow.Some?)
            && (status == AwaitingHumanApproval <==> c.state == AwaitingApproval || (c.state == Approved && c.changeWindow.None?))
  {
    QueueHolds(cases, q, i);
    StatusOfFree(QueueOf(cases, q)[i].case_);
    StatusIs(cases, q, i);
    hide QueueOf, InQueue, StatusOf;
  }

  lemma StatusIs(cases: seq<RemediationCase>, q: Query, i: nat)
    requires i < |QueueOf(cases, q)|
    ensures var item := QueueOf(cases, q)[i]; item.status == StatusOf(item.case_, item.conflicts != [])
  {
    hide Entries, Sort, Ahead, ConflictsOf, StatusOf;
  }

  lemma StatusOfFree(c: RemediationCase)
    requires InQueue(c)
    ensures match StatusOf(c, false)
            case AwaitingPlan => c.state == Validated
            case AwaitingSreReview => c.state == PlanReady
            case AwaitingWindow => c.state == SreApproved
            case AwaitingRollbackReview => c.state == WindowSelected
            case AssemblingHumanReview => c.state == RollbackReady
            case Scheduled => c.state == Approved && c.changeWindow.Some?
            case AwaitingHumanApproval => c.state == AwaitingApproval || (c.state == Approved && c.changeWindow.None?)
            case _ => false
  {
  }

  // ----- Collisions -----

  lemma {:induction false} ConflictsAre(scored: seq<Entry>, index: nat, upto: nat, policy: Policy)
    requires upto <= index < |scored|
    ensures ConflictsOf(scored, index, upto, policy) == [] <==>
              forall i :: 0 <= i < upto ==> !Collides(scored[index].case_, scored[i].case_, policy)
  {
    if upto > 0 { ConflictsAre(scored, index, upto - 1, policy); }
  }

  /** A case is scheduled exactly when it is approved, has a window, and no higher case collides with it. */
  lemma ScheduledIff(cases: seq<RemediationCase>, q: Query, index: nat)
    requires index < |QueueOf(cases, q)|
    ensures var items := QueueOf(cases, q);
            var c := items[index].case_;
            items[index].status.Scheduled? <==>
              && c.state.Approved? && c.changeWindow.Some?
              && forall i :: 0 <= i < index ==> !Collides(c, items[i].case_, q.policy)
  {
    hide ConflictsOf, Collides;
    var scored, items := Sort(Entries(cases, q), Ahead), QueueOf(cases, q);
    assert forall i :: 0 <= i < |scored| ==> items[i].case_ == scored[i].case_;
    ConflictsAre(scored, index, index, q.policy);
  }

  lemma {:induction false} ConflictIds(scored: seq<Entry>, index: nat, upto: nat, policy: Policy, id: string)
    requires upto <= index < |scored|
    ensures id in ConflictsOf(scored, index, upto, policy) <==>
              exists i :: 0 <= i < upto && Collides(scored[index].case_, scored[i].case_, policy) && scored[i].case_.caseId == id
  {
    if upto > 0 { ConflictIds(scored, index, upto - 1, policy, id); }
  }

  /** A conflict names exactly the higher cases it is with; it is reported for an approved case as a conflict of its
      window and for any other case with a window as a conflict of its candidate. */
  lemma ConflictIff(cases: seq<RemediationCase>, q: Query, index: nat, id: string)
    requires index < |QueueOf(cases, q)|
    ensures var items := QueueOf(cases, q);
            var c := items[index].case_;
            && (id in items[index].conflicts <==>
                  exists i :: 0 <= i < index && Collides(c, items[i].case_, q.policy) && items[i].case_.caseId == id)
            && (items[index].status.WindowConflict? <==> c.state.Approved? && items[index].conflicts != [])
            && (items[index].status.CandidateWindowConflict? <==> !c.state.Approved? && items[index].conflicts != [])
  {
    hide ConflictsOf;
    var scored, items := Sort(Entries(cases, q), Ahead), QueueOf(cases, q);
    assert forall i :: 0 <= i < |scored| ==> items[i].case_ == scored[i].case_;
    ConflictIds(scored, index, index, q.policy, id);
    ConflictsAre(scored, index, index, q.policy);
  }

  predicate InWindow(c: RemediationCase, instant: int) {
    c.changeWindow.Some? && c.changeWindow.value.startsAt <= instant < c.changeWindow.value.endsAt
  }

  /** No instant of a scheduled case lies in the window of a higher one: of any with one change at a time, and of
      those that share a service otherwise. */
  lemma NoDoubleBooking(cases: seq<RemediationCase>, q: Query, i: nat, j: nat, instant: int)
    requires i < j < |QueueOf(cases, q)| && QueueOf(cases, q)[j].status.Scheduled?
    requires q.policy.parallel == 1 || SharesService(QueueOf(cases, q)[j].case_, QueueOf(cases, q)[i].case_)
    ensures !(InWindow(QueueOf(cases, q)[i].case_, instant) && InWindow(QueueOf(cases, q)[j].case_, instant))
  {
    hide QueueOf, SharesService;
    ScheduledIff(cases, q, j);
    assert !Collides(QueueOf(cases, q)[j].case_, QueueOf(cases, q)[i].case_, q.policy);
  }

  /** For windows that are not empty the collision test is exact: it holds when some instant lies in both. */
  lemma OverlapIsCommonInstant(a: RemediationCase, b: RemediationCase)
    requires a.changeWindow.Some? ==> a.changeWindow.value.startsAt < a.changeWindow.value.endsAt
    requires b.changeWindow.Some? ==> b.changeWindow.value.startsAt < b.changeWindow.value.endsAt
    ensures Overlap(a, b) <==> exists instant :: InWindow(a, instant) && InWindow(b, instant)
  {
    if Overlap(a, b) {
      var instant := if a.changeWindow.value.startsAt > b.changeWindow.value.startsAt then a.changeWindow.value.startsAt
                     else b.changeWindow.value.startsAt;
      assert InWindow(a, instant) && InWindow(b, instant);
    }
  }

  /** A larger number of parallel changes is no bound: without shared services every approved case with a window is
      scheduled, however many there are and however their windows overlap. */
  lemma ParallelNumberIsNoBound(cases: seq<RemediationCase>, q: Query, index: nat)
    requires q.policy.parallel > 1 && index < |QueueOf(cases, q)|
    requires forall i :: 0 <= i < index ==> !SharesService(QueueOf(cases, q)[index].case_, QueueOf(cases, q)[i].case_)
    requires QueueOf(cases, q)[index].case_.state.Approved? && QueueOf(cases, q)[index].case_.changeWindow.Some?
    ensures QueueOf(cases, q)[index].status.Scheduled?
  {
    hide QueueOf, SharesService;
    ScheduledIff(cases, q, index);
  }

  /** An approved case with a window and no service. */
  function Approval(id: string, priority: RiskAssessment, window: ChangeWindow): RemediationCase {
    RemediationCase(id, "tenant", ["finding"], [], [], CaseState.Approved, 0, "created", "created", Some(priority), None,
                    Some(window), map[], None)
  }

  function Approvals(n: nat, priority: RiskAssessment, window: ChangeWindow): seq<RemediationCase> {
    seq(n, i requires 0 <= i < n => Approval(seq(i, _ => 'x'), priority, window))
  }

  lemma {:induction false} AllEntered(cases: seq<RemediationCase>, q: Query)
    requires forall c :: c in cases ==> InQueue(c)
    ensures |Entries(cases, q)| == |cases|
  {
    if cases != [] { AllEntered(cases[1..], q); }
  }

  /** For every number above one there are more scheduled cases than that number with a common instant. */
  lemma MoreThanTheNumber(q: Query, priority: RiskAssessment, window: ChangeWindow)
    requires q.policy.parallel > 1 && window.startsAt < window.endsAt
    ensures var items := QueueOf(Approvals(q.policy.parallel + 1, priority, window), q);
            && |items| == q.policy.parallel + 1
            && forall i :: 0 <= i < |items| ==> items[i].status.Scheduled? && InWindow(items[i].case_, window.startsAt)
  {
    var cases := Approvals(q.policy.parallel + 1, priority, window);
    AllEntered(cases, q);
    QueueIsRanking(cases, q);
    var items := QueueOf(cases, q);
    forall i | 0 <= i < |items| ensures items[i].case_ in cases { QueueHolds(cases, q, i); }
    hide QueueOf, Approvals, InQueue;
    forall i | 0 <= i < |items| ensures items[i].status.Scheduled? && InWindow(items[i].case_, window.startsAt) {
      ApprovalsAre(q.policy.parallel + 1, priority, window, items[i].case_);
      ParallelNumberIsNoBound(cases, q, i);
    }
  }

  lemma ApprovalsAre(n: nat, priority: RiskAssessment, window: ChangeWindow, c: RemediationCase)
    requires c in Approvals(n, priority, window)
    ensures c.state.Approved? && c.changeWindow == Some(window) && c.serviceIds == []
  {
  }

  // ----- The order of the input -----

  lemma {:induction false} EntriesConcat(a: seq<RemediationCase>, b: seq<RemediationCase>, q: Query)
    ensures Entries(a + b, q) == Entries(a, q) + Entries(b, q)
  {
    hide EntryOf;
    if a == [] {
      assert a + b == b;
    } else {
      EntriesConcat(a[1..], b, q);
      assert (a + b)[1..] == a[1..] + b;
    }
  }

  lemma EntriesMoved(before: seq<RemediationCase>, c: RemediationCase, after: seq<RemediationCase>, q: Query)
    ensures multiset(Entries(before + ([c] + after), q)) == multiset(Entries([c], q)) + multiset(Entries(before + after, q))
  {
    hide Entries;
    EntriesConcat(before, after, q);
    EntriesConcat(before, [c] + after, q);
    EntriesConcat([c], after, q);
  }

  lemma {:induction false} EntriesIgnoreOrder(a: seq<RemediationCase>, b: seq<RemediationCase>, q: Query)
    requires multiset(a) == multiset(b)
    ensures multiset(Entries(a, q)) == multiset(Entries(b, q))
  {
    if a == [] {
      assert |multiset(b)| == |b|;
    } else {
      hide Entries;
      assert a[0] in multiset(b);
      var i :| 0 <= i < |b| && b[i] == a[0];
      var before, after := b[..i], b[i + 1..];
      RestOfArrangement(a, b, i);
      EntriesIgnoreOrder(a[1..], before + after, q);
      assert a == [a[0]] + a[1..];
      EntriesConcat([a[0]], a[1..], q);
      EntriesMoved(before, b[i], after, q);
    }
  }

  predicate UniqueIds(cases: seq<RemediationCase>) {
    forall a, b :: a in cases && b in cases && a.caseId == b.caseId ==> a == b
  }

  /** The queue does not depend on the order in which the store lists the cases. */
  lemma InputOrderIgnored(a: seq<RemediationCase>, b: seq<RemediationCase>, q: Query)
    requires multiset(a) == multiset(b) && UniqueIds(a)
    ensures QueueOf(a, q) == QueueOf(b, q)
  {
    EntriesIgnoreOrder(a, b, q);
    AheadIsTotal();
    var es := Entries(a, q);
    forall x, y | x in es && y in es && Ahead(x, y) && Ahead(y, x) ensures x == y {
      EntriesAre(a, q, x);
      EntriesAre(a, q, y);
      if TextOrder.Less(x.case_.caseId, y.case_.caseId) {
        TextOrder.LessAsymmetric(x.case_.caseId, y.case_.caseId);
      }
    }
    SortIgnoresOrder(es, Entries(b, q), Ahead);
  }
}
