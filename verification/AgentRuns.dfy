/**
 * Budgets, replay and circuit breaking of agent runs, decided from the record log of one case.
 * The log is kept in the order of writing; no decision below depends on the order of equal times.
 */
module AgentRuns {
  import opened Common

  /** Digests are taken to be injective, so the keys are what they are digests of. */
  datatype PackageKey = PackageKey(role: string, outputContract: string, inputs: seq<string>, evidence: seq<string>)

  datatype ReplayKey = ReplayKey(package: PackageKey, objective: string, constraints: seq<string>)

  /** A task of the case without its id and its metadata, which no key reads. */
  datatype AgentTask = AgentTask(role: string, objective: string, outputContract: string, inputs: seq<string>,
                                 evidence: seq<string>, constraints: seq<string>)

  function Binding(task: AgentTask): ReplayKey {
    ReplayKey(PackageKey(task.role, task.outputContract, task.inputs, task.evidence), task.objective, task.constraints)
  }

  /** Two tasks share recorded results only if they are the same task, and budgets only if they are the same role asked for
      the same contract on the same inputs and evidence. */
  lemma SharedKeys(a: AgentTask, b: AgentTask)
    ensures Binding(a) == Binding(b) <==> a == b
    ensures Binding(a).package == Binding(b).package <==>
              && a.role == b.role && a.outputContract == b.outputContract
              && a.inputs == b.inputs && a.evidence == b.evidence
  {
  }

  datatype InvocationId = InvocationId(replay: ReplayKey, attempt: nat)

  datatype Status = Succeeded | NotSucceeded | Failed

  datatype Scope = CaseScope | PackageScope

  datatype Reason = ReplayUnavailable | IncompletePrior | CallBudget | PackageBudget | ElapsedBudget | CircuitOpen

  datatype Record =
    | Invocation(id: InvocationId, createdAt: int)
    | Outcome(of: InvocationId, status: Status, signature: string)
    | Terminal(reason: Reason, scope: Scope, package: PackageKey, cause: string)

  datatype Policy = Policy(maxModelCalls: nat, maxAttempts: nat, maxElapsed: nat, failureThreshold: nat)

  predicate ValidPolicy(p: Policy) {
    p.maxModelCalls > 0 && p.maxAttempts > 0 && p.maxElapsed > 0 && p.failureThreshold > 0
  }

  type Log = seq<Record>

  /** What one provider call does; a result that is not accepted has a non-empty signature. */
  datatype Provider = Throws(code: string) | Answers(accepted: bool, defect: string)

  /** Where a run is cut short: after the invocation record, after the call, or after the outcome. */
  datatype Crash = Never | BeforeCall | BeforeOutcome | BeforeTerminal

  datatype Input = Input(task: AgentTask, now: int, provider: Provider, crash: Crash, intact: set<InvocationId>)

  datatype Reply =
    | Restored(of: InvocationId)      // the recorded result, without a call
    | Result(accepted: bool)
    | Rethrown
    | Stopped(reason: Reason)
    | Crashed

  datatype State = State(log: Log, calls: nat)

  // ----- Reading the log -----

  function Count(log: Log, f: Record -> bool): nat {
    if log == [] then 0 else Count(log[..|log| - 1], f) + (if f(log[|log| - 1]) then 1 else 0)
  }

  function AnyInvocation(): Record -> bool { (r: Record) => r.Invocation? }

  function InvocationOf(package: PackageKey): Record -> bool {
    (r: Record) => r.Invocation? && r.id.replay.package == package
  }

  function FailureOf(package: PackageKey, signature: string): Record -> bool {
    (r: Record) => r.Outcome? && r.of.replay.package == package && r.signature == signature
  }

  predicate SucceededWith(r: Record, replay: ReplayKey) { r.Outcome? && r.status.Succeeded? && r.of.replay == replay }

  predicate Unresolved(log: Log, r: Record) {
    r.Invocation? && !exists o :: o in log && o.Outcome? && o.of == r.id
  }

  predicate Pending(log: Log) { exists r :: r in log && Unresolved(log, r) }

  /** A stop that applies to the package. */
  predicate Stops(r: Record, package: PackageKey) {
    r.Terminal? && (r.scope.CaseScope? || r.package == package)
  }

  predicate Halted(log: Log, package: PackageKey) { exists r :: r in log && Stops(r, package) }

  /** Some invocation is at least `limit` seconds old. */
  predicate Aged(log: Log, now: int, limit: nat) {
    exists r :: r in log && r.Invocation? && now - r.createdAt >= limit
  }

  /** The stop the budgets call for, if any. */
  function Exhausted(log: Log, package: PackageKey, policy: Policy, now: int): Option<(Reason, Scope)> {
    if Pending(log) then Some((IncompletePrior, CaseScope))
    else if Count(log, AnyInvocation()) >= policy.maxModelCalls then Some((CallBudget, CaseScope))
    else if Count(log, InvocationOf(package)) >= policy.maxAttempts then Some((PackageBudget, PackageScope))
    else if Aged(log, now, policy.maxElapsed) then Some((ElapsedBudget, CaseScope))
    else None
  }

  /** Terminal records are written once per scope, reason and cause. */
  function WithTerminal(log: Log, reason: Reason, scope: Scope, package: PackageKey, cause: string): Log {
    if exists r :: r in log && r.Terminal? && r.reason == reason && r.scope == scope && r.cause == cause
                   && (scope.CaseScope? || r.package == package)
    then log
    else log + [Terminal(reason, scope, package, cause)]
  }

  function SignatureOf(p: Provider): string {
    match p
    case Throws(code) => "E" + code
    case Answers(accepted, defect) => if accepted then "" else "R" + defect
  }

  /** Only an accepted answer has no signature, and failures share one exactly when they failed in the same way. */
  lemma SignatureTells(a: Provider, b: Provider)
    ensures SignatureOf(a) == "" <==> a.Answers? && a.accepted
    ensures SignatureOf(a) != "" ==>
              (SignatureOf(a) == SignatureOf(b) <==>
                 if a.Throws? then b.Throws? && a.code == b.code
                 else b.Answers? && !b.accepted && a.defect == b.defect)
  {
    assert SignatureOf(a) != "" ==> SignatureOf(a)[1..] == if a.Throws? then a.code else a.defect;
    assert SignatureOf(b) != "" ==> SignatureOf(b)[1..] == if b.Throws? then b.code else b.defect;
  }

  function OutcomeOf(id: InvocationId, p: Provider): Record {
    match p
    case Throws(_) => Outcome(id, Failed, SignatureOf(p))
    case Answers(accepted, _) => Outcome(id, if accepted then Succeeded else NotSucceeded, SignatureOf(p))
  }

  predicate Trips(log: Log, package: PackageKey, signature: string, policy: Policy) {
    signature != "" && Count(log, FailureOf(package, signature)) >= policy.failureThreshold
  }

  /** A run that has passed every check: invocation, call, outcome, and the circuit. */
  function Attempted(s: State, input: Input, policy: Policy): (State, Reply) {
    var replay := Binding(input.task);
    var id := InvocationId(replay, Count(s.log, InvocationOf(replay.package)) + 1);
    var begun := s.log + [Invocation(id, input.now)];
    if input.crash.BeforeCall? then (State(begun, s.calls), Crashed)
    else if input.crash.BeforeOutcome? then (State(begun, s.calls + 1), Crashed)
    else
      var signature := SignatureOf(input.provider);
      var done := begun + [OutcomeOf(id, input.provider)];
      if !Trips(done, replay.package, signature, policy) then
        (State(done, s.calls + 1), if input.provider.Throws? then Rethrown else Result(input.provider.accepted))
      else if input.crash.BeforeTerminal? then (State(done, s.calls + 1), Crashed)
      else (State(WithTerminal(done, CircuitOpen, PackageScope, replay.package, signature), s.calls + 1), Stopped(CircuitOpen))
  }

  /** The success a replay restores: the first one recorded for the key. */
  function FirstSuccess(log: Log, replay: ReplayKey): (id: Option<InvocationId>)
    ensures id.None? ==> forall r :: r in log ==> !SucceededWith(r, replay)
    ensures id.Some? ==> exists r :: r in log && SucceededWith(r, replay) && r.of == id.value
  {
    if log == [] then None
    else
      var earlier, last := FirstSuccess(log[..|log| - 1], replay), log[|log| - 1];
      if earlier.None? && SucceededWith(last, replay) then Some(last.of) else earlier
  }

  /** The stop in force: the latest one that applies to the package. */
  function LastStop(log: Log, package: PackageKey): (reason: Option<Reason>)
    ensures reason.Some? <==> Halted(log, package)
  {
    if log == [] then None
    else if Stops(log[|log| - 1], package) then Some(log[|log| - 1].reason)
    else LastStop(log[..|log| - 1], package)
  }

  /** One run: replay, then stops, then budgets, then the call. */
  function RunOnce(s: State, input: Input, policy: Policy): (State, Reply) {
    var replay := Binding(input.task);
    var success, halt := FirstSuccess(s.log, replay), LastStop(s.log, replay.package);
    if success.Some? then
      if success.value in input.intact then (s, Restored(success.value))
      else (s.(log := WithTerminal(s.log, ReplayUnavailable, PackageScope, replay.package, "")), Stopped(ReplayUnavailable))
    else if halt.Some? then (s, Stopped(halt.value))
    else
      var stop := Exhausted(s.log, replay.package, policy, input.now);
      if stop.Some? then
        (s.(log := WithTerminal(s.log, stop.value.0, stop.value.1, replay.package, "")), Stopped(stop.value.0))
      else Attempted(s, input, policy)
  }

  function RunFrom(s: State, inputs: seq<Input>, policy: Policy): State {
    if inputs == [] then s
    else RunOnce(RunFrom(s, inputs[..|inputs| - 1], policy), inputs[|inputs| - 1], policy).0
  }

  function RunAll(inputs: seq<Input>, policy: Policy): State { RunFrom(State([], 0), inputs, policy) }

  // ----- What every run keeps -----

  /** Each package's invocations carry the attempt numbers 1, 2, 3, ... in order. */
  ghost predicate Numbered(log: Log) {
    forall i :: 0 <= i < |log| && log[i].Invocation? ==>
      log[i].id.attempt == Count(log[..i], InvocationOf(log[i].id.replay.package)) + 1
  }

  ghost predicate WithinBudget(s: State, policy: Policy) {
    && s.calls <= Count(s.log, AnyInvocation()) <= policy.maxModelCalls
    && forall package :: Count(s.log, InvocationOf(package)) <= policy.maxAttempts
  }

  /** Every outcome names an invocation written before it. */
  ghost predicate Rooted(log: Log) {
    forall i :: 0 <= i < |log| && log[i].Outcome? ==>
      exists k :: 0 <= k < i && log[k].Invocation? && log[k].id == log[i].of
  }

  /** No invocation has two outcomes, and no replay key two successes. */
  ghost predicate Single(log: Log) {
    forall i, k :: 0 <= i < k < |log| && log[i].Outcome? && log[k].Outcome? ==>
      && log[i].of != log[k].of
      && !(log[i].status.Succeeded? && log[k].status.Succeeded? && log[i].of.replay == log[k].of.replay)
  }

  /** A new invocation is only written once every earlier one has its outcome. */
  ghost predicate OneAtATime(log: Log) {
    forall i, k :: 0 <= i < k < |log| && log[i].Invocation? && log[k].Invocation? ==> !Unresolved(log, log[i])
  }

  ghost predicate Resolved(log: Log) { Rooted(log) && Single(log) && OneAtATime(log) }

  ghost predicate Sound(s: State, policy: Policy) {
    Numbered(s.log) && WithinBudget(s, policy) && Resolved(s.log)
  }

  lemma CountExtend(log: Log, r: Record, f: Record -> bool)
    ensures Count(log + [r], f) == Count(log, f) + (if f(r) then 1 else 0)
  {
    assert (log + [r])[..|log + [r]| - 1] == log;
  }

  lemma NumberedExtend(log: Log, r: Record)
    requires Numbered(log)
    requires r.Invocation? ==> r.id.attempt == Count(log, InvocationOf(r.id.replay.package)) + 1
    ensures Numbered(log + [r])
  {
    var longer := log + [r];
    forall i | 0 <= i < |longer| && longer[i].Invocation?
      ensures longer[i].id.attempt == Count(longer[..i], InvocationOf(longer[i].id.replay.package)) + 1
    {
      if i < |log| { assert longer[..i] == log[..i]; } else { assert longer[..i] == log; }
    }
  }

  /** The attempt number of any earlier invocation of the package is at most the count. */
  lemma {:induction false} AttemptsBelow(log: Log, i: nat, package: PackageKey)
    requires Numbered(log) && i < |log| && log[i].Invocation? && log[i].id.replay.package == package
    ensures log[i].id.attempt <= Count(log, InvocationOf(package))
    decreases |log|
  {
    var shorter := log[..|log| - 1];
    if i == |shorter| {
      assert log[..i] == shorter;
    } else {
      forall k | 0 <= k < |shorter| && shorter[k].Invocation?
        ensures shorter[k].id.attempt == Count(shorter[..k], InvocationOf(shorter[k].id.replay.package)) + 1
      {
        assert shorter[..k] == log[..k];
      }
      AttemptsBelow(shorter, i, package);
    }
  }

  /** Invocation ids are never reused, so the invocation record of a run is always new. */
  lemma FreshInvocation(log: Log, replay: ReplayKey)
    requires Numbered(log)
    ensures forall r :: r in log && r.Invocation? ==>
              r.id != InvocationId(replay, Count(log, InvocationOf(replay.package)) + 1)
  {
    forall i | 0 <= i < |log| && log[i].Invocation?
      ensures log[i].id != InvocationId(replay, Count(log, InvocationOf(replay.package)) + 1)
    {
      if log[i].id.replay == replay { AttemptsBelow(log, i, replay.package); }
    }
  }

  lemma TerminalSound(s: State, policy: Policy, t: Record)
    requires Sound(s, policy) && t.Terminal?
    ensures Sound(s.(log := s.log + [t]), policy)
  {
    NumberedExtend(s.log, t);
    CountExtend(s.log, t, AnyInvocation());
    forall package ensures Count(s.log + [t], InvocationOf(package)) == Count(s.log, InvocationOf(package)) {
      CountExtend(s.log, t, InvocationOf(package));
    }
    ResolvedTerminal(s.log, t);
  }

  lemma RootedExtend(log: Log, r: Record)
    requires Rooted(log)
    requires r.Outcome? ==> exists k :: 0 <= k < |log| && log[k].Invocation? && log[k].id == r.of
    ensures Rooted(log + [r])
  {
    var longer := log + [r];
    forall i | 0 <= i < |longer| && longer[i].Outcome?
      ensures exists k :: 0 <= k < i && longer[k].Invocation? && longer[k].id == longer[i].of
    {
      var k :| 0 <= k < i && log[k].Invocation? && log[k].id == longer[i].of;
      assert longer[k] == log[k];
    }
  }

  /** An outcome resolves its invocation and leaves the others as they were. */
  lemma UnresolvedAfter(log: Log, e: Record, r: Record)
    ensures Unresolved(log + [e], r) <==> Unresolved(log, r) && !(e.Outcome? && e.of == r.id)
  {
    var longer := log + [e];
    if Unresolved(log, r) && !(e.Outcome? && e.of == r.id) {
      forall o | o in longer && o.Outcome? ensures o.of != r.id { assert o in log || o == e; }
    }
    if Unresolved(longer, r) {
      forall o | o in log && o.Outcome? ensures o.of != r.id { assert o in longer; }
      assert e in longer;
    }
  }

  lemma ResolvedTerminal(log: Log, t: Record)
    requires Resolved(log) && t.Terminal?
    ensures Resolved(log + [t])
  {
    hide Rooted;
    RootedExtend(log, t);
    forall i | 0 <= i < |log| ensures Unresolved(log + [t], log[i]) <==> Unresolved(log, log[i]) {
      UnresolvedAfter(log, t, log[i]);
    }
    hide Unresolved;
  }

  lemma ResolvedInvocation(log: Log, r: Record)
    requires Resolved(log) && r.Invocation? && !Pending(log)
    ensures Resolved(log + [r])
  {
    RootedExtend(log, r);
    forall i | 0 <= i < |log| && log[i].Invocation? ensures !Unresolved(log + [r], log[i]) {
      UnresolvedAfter(log, r, log[i]);
      assert log[i] in log;
    }
  }

  lemma ResolvedOutcome(log: Log, o: Record)
    requires Resolved(log) && log != [] && log[|log| - 1].Invocation? && o.Outcome? && o.of == log[|log| - 1].id
    requires forall k :: 0 <= k < |log| && log[k].Outcome? ==> log[k].of != o.of
    requires forall k :: 0 <= k < |log| ==> !SucceededWith(log[k], o.of.replay)
    ensures Resolved(log + [o])
  {
    RootedExtend(log, o);
    forall i | 0 <= i < |log| ensures Unresolved(log + [o], log[i]) ==> Unresolved(log, log[i]) {
      UnresolvedAfter(log, o, log[i]);
    }
    OneAtATimeOutcome(log, o);
    forall k | 0 <= k < |log| && log[k].Outcome?
      ensures !(log[k].status.Succeeded? && log[k].of.replay == o.of.replay)
    {
      assert !SucceededWith(log[k], o.of.replay);
    }
  }

  lemma OneAtATimeOutcome(log: Log, o: Record)
    requires OneAtATime(log) && o.Outcome?
    ensures OneAtATime(log + [o])
  {
    var longer := log + [o];
    forall i, k | 0 <= i < k < |longer| && longer[i].Invocation? && longer[k].Invocation?
      ensures !Unresolved(longer, longer[i])
    {
      assert !Unresolved(log, log[i]) by { assert log[k].Invocation?; }
      UnresolvedAfter(log, o, log[i]);
    }
  }

  /** An outcome names an invocation that came before it. */
  lemma OutcomesNameInvocations(log: Log, o: Record)
    requires Resolved(log) && o in log && o.Outcome?
    ensures exists r :: r in log && r.Invocation? && r.id == o.of
  {
    var i :| 0 <= i < |log| && log[i] == o;
    var k :| 0 <= k < i && log[k].Invocation? && log[k].id == log[i].of;
    assert log[k] in log;
  }

  lemma InvocationSound(s: State, policy: Policy, r: Record, calls: nat)
    requires Sound(s, policy) && r.Invocation? && !Pending(s.log)
    requires r.id.attempt == Count(s.log, InvocationOf(r.id.replay.package)) + 1
    requires Count(s.log, AnyInvocation()) < policy.maxModelCalls
    requires Count(s.log, InvocationOf(r.id.replay.package)) < policy.maxAttempts
    requires calls <= s.calls + 1
    ensures Sound(State(s.log + [r], calls), policy)
  {
    NumberedExtend(s.log, r);
    ResolvedInvocation(s.log, r);
    CountExtend(s.log, r, AnyInvocation());
    forall package ensures Count(s.log + [r], InvocationOf(package)) <= policy.maxAttempts {
      CountExtend(s.log, r, InvocationOf(package));
    }
  }

  lemma OutcomeSound(s: State, policy: Policy, o: Record)
    requires Sound(s, policy) && s.log != [] && s.log[|s.log| - 1].Invocation? && o.Outcome?
    requires o.of == s.log[|s.log| - 1].id
    requires forall k :: 0 <= k < |s.log| && s.log[k].Outcome? ==> s.log[k].of != o.of
    requires forall k :: 0 <= k < |s.log| ==> !SucceededWith(s.log[k], o.of.replay)
    ensures Sound(s.(log := s.log + [o]), policy)
  {
    NumberedExtend(s.log, o);
    ResolvedOutcome(s.log, o);
    CountExtend(s.log, o, AnyInvocation());
    forall package ensures Count(s.log + [o], InvocationOf(package)) == Count(s.log, InvocationOf(package)) {
      CountExtend(s.log, o, InvocationOf(package));
    }
  }

  lemma WithTerminalSound(s: State, policy: Policy, reason: Reason, scope: Scope, package: PackageKey, cause: string)
    requires Sound(s, policy)
    ensures Sound(s.(log := WithTerminal(s.log, reason, scope, package, cause)), policy)
  {
    hide Sound;
    if WithTerminal(s.log, reason, scope, package, cause) != s.log {
      TerminalSound(s, policy, Terminal(reason, scope, package, cause));
    }
  }

  /** Nothing recorded so far belongs to a new invocation. */
  lemma NoOutcomeYet(log: Log, id: InvocationId)
    requires Numbered(log) && Rooted(log)
    requires id.attempt == Count(log, InvocationOf(id.replay.package)) + 1
    ensures forall k :: 0 <= k < |log| && log[k].Outcome? ==> log[k].of != id
  {
    FreshInvocation(log, id.replay);
    forall k | 0 <= k < |log| && log[k].Outcome? ensures log[k].of != id {
      var i :| 0 <= i < k && log[i].Invocation? && log[i].id == log[k].of;
      assert log[i] in log;
    }
  }

  lemma AttemptedSound(s: State, input: Input, policy: Policy)
    requires Sound(s, policy)
    requires forall r :: r in s.log ==> !SucceededWith(r, Binding(input.task))
    requires Exhausted(s.log, Binding(input.task).package, policy, input.now).None?
    ensures Sound(Attempted(s, input, policy).0, policy)
  {
    hide Numbered, Resolved, Trips, WithinBudget, SucceededWith, WithTerminal;
    var replay := Binding(input.task);
    var id := InvocationId(replay, Count(s.log, InvocationOf(replay.package)) + 1);
    var r := Invocation(id, input.now);
    InvocationSound(s, policy, r, s.calls);
    InvocationSound(s, policy, r, s.calls + 1);
    if !input.crash.BeforeCall? && !input.crash.BeforeOutcome? {
      var begun := State(s.log + [r], s.calls + 1);
      var o := OutcomeOf(id, input.provider);
      RootedOf(s.log);
      NoOutcomeYet(s.log, id);
      forall k | 0 <= k < |begun.log| ensures !SucceededWith(begun.log[k], replay) {
        NotASuccess(r, replay);
        assert k < |s.log| ==> s.log[k] in s.log;
      }
      OutcomeSound(begun, policy, o);
      WithTerminalSound(State(begun.log + [o], begun.calls), policy, CircuitOpen, PackageScope, replay.package,
                        SignatureOf(input.provider));
    }
  }

  lemma RootedOf(log: Log)
    requires Resolved(log)
    ensures Rooted(log)
  {
  }

  lemma NotASuccess(r: Record, replay: ReplayKey)
    requires r.Invocation?
    ensures !SucceededWith(r, replay)
  {
  }

  lemma RunSound(s: State, input: Input, policy: Policy)
    requires Sound(s, policy)
    ensures Sound(RunOnce(s, input, policy).0, policy)
  {
    hide Sound, Exhausted, Halted, Attempted, WithTerminal;
    var package := Binding(input.task).package;
    WithTerminalSound(s, policy, ReplayUnavailable, PackageScope, package, "");
    var stop := Exhausted(s.log, package, policy, input.now);
    if stop.Some? {
      WithTerminalSound(s, policy, stop.value.0, stop.value.1, package, "");
    } else if forall r :: r in s.log ==> !SucceededWith(r, Binding(input.task)) {
      AttemptedSound(s, input, policy);
    }
  }

  lemma {:induction false} RunFromSound(s: State, inputs: seq<Input>, policy: Policy)
    requires Sound(s, policy)
    ensures Sound(RunFrom(s, inputs, policy), policy)
  {
    if inputs != [] {
      hide Sound, RunOnce;
      RunFromSound(s, inputs[..|inputs| - 1], policy);
      RunSound(RunFrom(s, inputs[..|inputs| - 1], policy), inputs[|inputs| - 1], policy);
    }
  }

  /** Over every sequence of runs, crashes anywhere: the budgets, the numbering and the pairing of outcomes hold. */
  lemma BudgetsHold(inputs: seq<Input>, policy: Policy)
    ensures Sound(RunAll(inputs, policy), policy)
  {
    hide RunFrom;
    RunFromSound(State([], 0), inputs, policy);
  }

  // ----- Stops that last -----

  predicate Extends(before: Log, after: Log) { |before| <= |after| && after[..|before|] == before }

  /** A log only grows, and only a run that passes every check calls the provider. */
  lemma RunAppends(s: State, input: Input, policy: Policy)
    ensures Extends(s.log, RunOnce(s, input, policy).0.log)
    ensures s.calls <= RunOnce(s, input, policy).0.calls <= s.calls + 1
    ensures RunOnce(s, input, policy).0.calls > s.calls ==>
              && (forall r :: r in s.log ==> !SucceededWith(r, Binding(input.task)))
              && !Halted(s.log, Binding(input.task).package)
              && Exhausted(s.log, Binding(input.task).package, policy, input.now).None?
  {
    hide Exhausted, Halted, SucceededWith, Trips;
  }

  /** A call is only made with every budget open: no invocation without its outcome, calls and attempts left, and every
      invocation younger than the limit; nothing recorded stops the package or already holds a success. */
  lemma CallNeedsBudget(s: State, input: Input, policy: Policy)
    requires RunOnce(s, input, policy).0.calls > s.calls
    ensures var package := Binding(input.task).package;
            && !Pending(s.log) && !Halted(s.log, package)
            && Count(s.log, AnyInvocation()) < policy.maxModelCalls
            && Count(s.log, InvocationOf(package)) < policy.maxAttempts
            && (forall r :: r in s.log && r.Invocation? ==> input.now - r.createdAt < policy.maxElapsed)
            && (forall r :: r in s.log ==> !SucceededWith(r, Binding(input.task)))
  {
    hide Halted, SucceededWith, Trips, Pending;
    RunAppends(s, input, policy);
  }

  /** Whoever is told to stop finds the reason in the log, as a stop of the package. */
  lemma StopIsRecorded(s: State, input: Input, policy: Policy)
    requires RunOnce(s, input, policy).1.Stopped?
    ensures exists t :: t in RunOnce(s, input, policy).0.log && Stops(t, Binding(input.task).package)
                        && t.reason == RunOnce(s, input, policy).1.reason
  {
    hide SucceededWith, Trips, Pending, Aged;
    var package := Binding(input.task).package;
    var halt := LastStop(s.log, package);
    if FirstSuccess(s.log, Binding(input.task)).Some? {
      TerminalIsThere(s.log, ReplayUnavailable, PackageScope, package, "");
    } else if halt.Some? {
      LastStopIsThere(s.log, package);
    } else {
      var stop := Exhausted(s.log, package, policy, input.now);
      if stop.Some? {
        TerminalIsThere(s.log, stop.value.0, stop.value.1, package, "");
      } else {
        var id := InvocationId(Binding(input.task), Count(s.log, InvocationOf(package)) + 1);
        TerminalIsThere(s.log + [Invocation(id, input.now)] + [OutcomeOf(id, input.provider)], CircuitOpen, PackageScope,
                        package, SignatureOf(input.provider));
      }
    }
  }

  lemma TerminalIsThere(log: Log, reason: Reason, scope: Scope, package: PackageKey, cause: string)
    ensures exists t :: t in WithTerminal(log, reason, scope, package, cause) && Stops(t, package) && t.reason == reason
  {
    var after := WithTerminal(log, reason, scope, package, cause);
    if after == log {
      var t :| t in log && t.Terminal? && t.reason == reason && t.scope == scope && t.cause == cause
               && (scope.CaseScope? || t.package == package);
      assert Stops(t, package);
    } else {
      assert after[|log|] == Terminal(reason, scope, package, cause);
    }
  }

  lemma {:induction false} LastStopIsThere(log: Log, package: PackageKey)
    requires LastStop(log, package).Some?
    ensures exists t :: t in log && Stops(t, package) && t.reason == LastStop(log, package).value
  {
    if !Stops(log[|log| - 1], package) { LastStopIsThere(log[..|log| - 1], package); }
  }

  /** An accepted answer is recorded as the success a replay restores. */
  lemma AcceptedIsRecorded(s: State, input: Input, policy: Policy)
    requires RunOnce(s, input, policy).1 == Result(true)
    ensures exists r :: r in RunOnce(s, input, policy).0.log && SucceededWith(r, Binding(input.task))
                        && r.of == NewId(s.log, input.task)
  {
    hide Halted, Trips, Pending, Aged, WithTerminal;
    var after := RunOnce(s, input, policy).0.log;
    var id := InvocationId(Binding(input.task), Count(s.log, InvocationOf(Binding(input.task).package)) + 1);
    var o := OutcomeOf(id, input.provider);
    assert after == s.log + [Invocation(id, input.now)] + [o];
    assert after[|after| - 1] == o && SucceededWith(o, Binding(input.task));
  }

  lemma {:induction false} CountIs(log: Log, f: Record -> bool)
    ensures Count(log, f) == |set i | 0 <= i < |log| && f(log[i])|
  {
    if log != [] {
      var shorter, last := log[..|log| - 1], |log| - 1;
      CountIs(shorter, f);
      var before := set i | 0 <= i < |shorter| && f(shorter[i]);
      var now := set i | 0 <= i < |log| && f(log[i]);
      assert now == if f(log[last]) then before + {last} else before;
    }
  }

  /** What the budgets and the circuit count: the invocations of the case, those of the package, and the package's outcomes
      with one signature. */
  lemma Counts(log: Log, package: PackageKey, signature: string)
    ensures Count(log, AnyInvocation()) == |set i | 0 <= i < |log| && log[i].Invocation?|
    ensures Count(log, InvocationOf(package)) == |set i | 0 <= i < |log| && log[i].Invocation? && log[i].id.replay.package == package|
    ensures Count(log, FailureOf(package, signature))
            == |set i | 0 <= i < |log| && log[i].Outcome? && log[i].of.replay.package == package && log[i].signature == signature|
  {
    CountIs(log, AnyInvocation());
    CountIs(log, InvocationOf(package));
    CountIs(log, FailureOf(package, signature));
    assert (set i | 0 <= i < |log| && AnyInvocation()(log[i])) == set i | 0 <= i < |log| && log[i].Invocation?;
    assert (set i | 0 <= i < |log| && InvocationOf(package)(log[i]))
           == set i | 0 <= i < |log| && log[i].Invocation? && log[i].id.replay.package == package;
    assert (set i | 0 <= i < |log| && FailureOf(package, signature)(log[i]))
           == set i | 0 <= i < |log| && log[i].Outcome? && log[i].of.replay.package == package && log[i].signature == signature;
  }

  /** The provider is called exactly when the key has no success, no stop is on the case or the package, every invocation has
      its outcome, calls, attempts and time are left, and the run is not cut short before the call. */
  lemma CallIff(s: State, input: Input, policy: Policy)
    ensures var replay := Binding(input.task);
            RunOnce(s, input, policy).0.calls == s.calls + 1 <==>
              && (forall r :: r in s.log && r.Outcome? && r.of.replay == replay ==> !r.status.Succeeded?)
              && (forall r :: r in s.log && r.Terminal? ==> r.scope == PackageScope && r.package != replay.package)
              && (forall r :: r in s.log && r.Invocation? ==> exists o :: o in s.log && o.Outcome? && o.of == r.id)
              && Count(s.log, AnyInvocation()) < policy.maxModelCalls
              && Count(s.log, InvocationOf(replay.package)) < policy.maxAttempts
              && (forall r :: r in s.log && r.Invocation? ==> input.now - r.createdAt < policy.maxElapsed)
              && !input.crash.BeforeCall?
    ensures RunOnce(s, input, policy).0.calls in {s.calls, s.calls + 1}
  {
    hide Trips, WithTerminal;
    SuccessIff(s.log, Binding(input.task));
    StopIff(s.log, Binding(input.task).package);
    PendingIff(s.log);
    hide Pending, Stops, Halted, SucceededWith;
  }

  lemma SuccessIff(log: Log, replay: ReplayKey)
    ensures FirstSuccess(log, replay).None? <==> forall r :: r in log && r.Outcome? && r.of.replay == replay ==> !r.status.Succeeded?
  {
    if FirstSuccess(log, replay).None? {
      forall r | r in log && r.Outcome? && r.of.replay == replay ensures !r.status.Succeeded? { assert !SucceededWith(r, replay); }
    }
  }

  lemma StopIff(log: Log, package: PackageKey)
    ensures LastStop(log, package).None? <==> forall r :: r in log && r.Terminal? ==> r.scope == PackageScope && r.package != package
  {
    assert LastStop(log, package).Some? <==> Halted(log, package);
    if !Halted(log, package) {
      forall r | r in log && r.Terminal? ensures r.scope == PackageScope && r.package != package { assert !Stops(r, package); }
    }
  }

  lemma PendingIff(log: Log)
    ensures Pending(log) <==> !forall r :: r in log && r.Invocation? ==> exists o :: o in log && o.Outcome? && o.of == r.id
  {
    if !Pending(log) {
      forall r | r in log && r.Invocation? ensures exists o :: o in log && o.Outcome? && o.of == r.id {
        assert !Unresolved(log, r);
      }
    } else {
      var r :| r in log && Unresolved(log, r);
      assert r.Invocation?;
    }
  }

  lemma ExtendsKeeps(before: Log, after: Log)
    requires Extends(before, after)
    ensures forall r :: r in before ==> r in after
  {
    forall r | r in before ensures r in after {
      var i :| 0 <= i < |before| && before[i] == r;
      assert after[i] == r;
    }
  }

  /** A stop for a package ends its calls for good. */
  lemma HaltedForGood(s: State, input: Input, policy: Policy, package: PackageKey)
    requires Halted(s.log, package)
    ensures Halted(RunOnce(s, input, policy).0.log, package)
    ensures Binding(input.task).package == package ==> RunOnce(s, input, policy).0.calls == s.calls
  {
    hide RunOnce, Exhausted;
    RunAppends(s, input, policy);
    ExtendsKeeps(s.log, RunOnce(s, input, policy).0.log);
  }

  /** A crash between the invocation record and its outcome leaves the case pending. */
  lemma CrashLeavesPending(s: State, input: Input, policy: Policy)
    requires Sound(s, policy) && RunOnce(s, input, policy).1.Crashed? && input.crash in {BeforeCall, BeforeOutcome}
    ensures Pending(RunOnce(s, input, policy).0.log)
  {
    hide Exhausted, Halted, SucceededWith, Trips;
    var replay := Binding(input.task);
    var id := InvocationId(replay, Count(s.log, InvocationOf(replay.package)) + 1);
    NoOutcomeYet(s.log, id);
    var r := Invocation(id, input.now);
    var after := RunOnce(s, input, policy).0.log;
    assert after == s.log + [r];
    assert forall o :: o in s.log && o.Outcome? ==> o.of != id;
    assert Unresolved(s.log, r);
    UnresolvedAfter(s.log, r, r);
    assert after[|s.log|] == r;
  }

  /** A pending case makes no further call, for any package, whatever is run. */
  lemma PendingForGood(s: State, input: Input, policy: Policy)
    requires Sound(s, policy) && Pending(s.log)
    ensures Pending(RunOnce(s, input, policy).0.log)
    ensures RunOnce(s, input, policy).0.calls == s.calls
  {
    hide Halted, SucceededWith, Numbered, WithinBudget, Resolved;
    RunAppends(s, input, policy);
    var after := RunOnce(s, input, policy).0.log;
    var r :| r in s.log && Unresolved(s.log, r);
    assert Exhausted(s.log, Binding(input.task).package, policy, input.now) == Some((IncompletePrior, CaseScope));
    if after != s.log {
      var t := after[|s.log|];
      assert after == s.log + [t] && t.Terminal?;
      UnresolvedAfter(s.log, t, r);
      assert r in after;
    }
  }

  /** So a crash between an invocation and its outcome ends the calls of the case, however many runs follow. */
  lemma {:induction false} CrashStopsCalls(s: State, crashed: Input, later: seq<Input>, policy: Policy)
    requires Sound(s, policy) && RunOnce(s, crashed, policy).1.Crashed? && crashed.crash in {BeforeCall, BeforeOutcome}
    ensures var after := RunOnce(s, crashed, policy).0;
            Pending(RunFrom(after, later, policy).log) && RunFrom(after, later, policy).calls == after.calls
  {
    hide RunOnce, Sound, Pending;
    var after := RunOnce(s, crashed, policy).0;
    if later == [] {
      CrashLeavesPending(s, crashed, policy);
    } else {
      var shorter := later[..|later| - 1];
      CrashStopsCalls(s, crashed, shorter, policy);
      RunSound(s, crashed, policy);
      RunFromSound(after, shorter, policy);
      PendingForGood(RunFrom(after, shorter, policy), later[|later| - 1], policy);
    }
  }

  /** A recorded success stays in the log, whatever is run later. */
  lemma {:induction false} RecordsStay(s: State, inputs: seq<Input>, policy: Policy)
    ensures forall r :: r in s.log ==> r in RunFrom(s, inputs, policy).log
  {
    if inputs != [] {
      hide RunOnce;
      var shorter := inputs[..|inputs| - 1];
      RecordsStay(s, shorter, policy);
      RunAppends(RunFrom(s, shorter, policy), inputs[|inputs| - 1], policy);
      ExtendsKeeps(RunFrom(s, shorter, policy).log, RunFrom(s, inputs, policy).log);
    }
  }

  /** A success whose result is intact is replayed without a call or a record, in every later state: budgets, stops
      and pending invocations do not matter. */
  lemma ReplayForever(s: State, inputs: seq<Input>, policy: Policy, success: Record, input: Input)
    requires Sound(s, policy) && success in s.log && SucceededWith(success, Binding(input.task))
    requires success.of in input.intact
    ensures var now := RunFrom(s, inputs, policy);
            RunOnce(now, input, policy) == (now, Restored(success.of))
  {
    hide RunFrom, Attempted, Exhausted, Halted, Numbered, WithinBudget;
    var now := RunFrom(s, inputs, policy);
    RunFromSound(s, inputs, policy);
    RecordsStay(s, inputs, policy);
    var replay := Binding(input.task);
    var id := FirstSuccess(now.log, replay);
    assert id.Some?;
    var r :| r in now.log && SucceededWith(r, replay) && r.of == id.value;
    SuccessUnique(now.log, r, success, replay);
  }

  lemma SuccessUnique(log: Log, a: Record, b: Record, replay: ReplayKey)
    requires Single(log) && a in log && b in log && SucceededWith(a, replay) && SucceededWith(b, replay)
    ensures a == b
  {
    var i :| 0 <= i < |log| && log[i] == a;
    var k :| 0 <= k < |log| && log[k] == b;
    if i < k {
      assert log[i].Outcome? && log[k].Outcome?;
    } else if k < i {
      assert log[k].Outcome? && log[i].Outcome?;
    }
  }

  // ----- Where a replayed result comes from -----

  function ReplyAt(inputs: seq<Input>, policy: Policy, k: nat): Reply
    requires k < |inputs|
  {
    RunOnce(RunAll(inputs[..k], policy), inputs[k], policy).1
  }

  /** The id the `k`-th run gives its call. */
  function InvocationAt(inputs: seq<Input>, policy: Policy, k: nat): InvocationId
    requires k < |inputs|
  {
    NewId(RunAll(inputs[..k], policy).log, inputs[k].task)
  }

  function NewId(log: Log, task: AgentTask): InvocationId {
    InvocationId(Binding(task), Count(log, InvocationOf(Binding(task).package)) + 1)
  }

  /** A new success record is the one of this run's own call, and the caller was told. */
  lemma SuccessStep(s: State, input: Input, policy: Policy, r: Record)
    requires r in RunOnce(s, input, policy).0.log && r !in s.log && r.Outcome? && r.status.Succeeded?
    ensures r.of == NewId(s.log, input.task) && RunOnce(s, input, policy).1 == Result(true)
  {
    hide Exhausted, FirstSuccess, LastStop, Count;
    TripsNeedsSignature(s.log + [Invocation(NewId(s.log, input.task), input.now)] + [r], r.of.replay.package, policy);
    hide Trips;
  }

  lemma TripsNeedsSignature(log: Log, package: PackageKey, policy: Policy)
    ensures !Trips(log, package, "", policy)
  {
  }

  /** Every success in the log is the accepted answer to one of the inputs. */
  lemma {:induction false} SuccessOrigin(inputs: seq<Input>, policy: Policy, r: Record) returns (k: nat)
    requires r in RunAll(inputs, policy).log && r.Outcome? && r.status.Succeeded?
    ensures k < |inputs| && ReplyAt(inputs, policy, k) == Result(true) && InvocationAt(inputs, policy, k) == r.of
  {
    hide RunOnce, NewId;
    var shorter := inputs[..|inputs| - 1];
    if r in RunAll(shorter, policy).log {
      k := SuccessOrigin(shorter, policy, r);
      assert shorter[..k] == inputs[..k];
    } else {
      SuccessStep(RunAll(shorter, policy), inputs[|inputs| - 1], policy, r);
      k := |inputs| - 1;
    }
  }

  lemma {:induction false} EarlierRecordsStay(inputs: seq<Input>, policy: Policy, k: nat)
    requires k <= |inputs|
    ensures forall r :: r in RunAll(inputs[..k], policy).log ==> r in RunAll(inputs, policy).log
  {
    if k == |inputs| {
      assert inputs[..k] == inputs;
    } else {
      hide RunOnce;
      var shorter := inputs[..|inputs| - 1];
      EarlierRecordsStay(shorter, policy, k);
      assert shorter[..k] == inputs[..k];
      RunAppends(RunAll(shorter, policy), inputs[|inputs| - 1], policy);
      ExtendsKeeps(RunAll(shorter, policy).log, RunAll(inputs, policy).log);
    }
  }

  /** An accepted answer of an earlier run is what a later run of the same task finds first. */
  lemma AcceptedIsFound(inputs: seq<Input>, policy: Policy, k: nat)
    requires k < |inputs| && ReplyAt(inputs, policy, k) == Result(true)
    ensures FirstSuccess(RunAll(inputs, policy).log, Binding(inputs[k].task)) == Some(InvocationAt(inputs, policy, k))
  {
    hide RunOnce, NewId;
    var before, replay := RunAll(inputs[..k], policy), Binding(inputs[k].task);
    AcceptedIsRecorded(before, inputs[k], policy);
    var r :| r in RunOnce(before, inputs[k], policy).0.log && SucceededWith(r, replay) && r.of == NewId(before.log, inputs[k].task);
    assert inputs[..k + 1][..k] == inputs[..k];
    EarlierRecordsStay(inputs, policy, k + 1);
    var now := RunAll(inputs, policy);
    BudgetsHold(inputs, policy);
    var id := FirstSuccess(now.log, replay);
    assert id.Some?;
    var found :| found in now.log && SucceededWith(found, replay) && found.of == id.value;
    SoundIsSingle(now, policy);
    SuccessUnique(now.log, found, r, replay);
  }

  lemma SoundIsSingle(s: State, policy: Policy)
    requires Sound(s, policy)
    ensures Single(s.log)
  {
  }

  /** A run answers without a call exactly when an earlier run of the very same task had its answer accepted and that
      result is still intact; another objective, another constraint or other inputs never reuse it. */
  lemma RestoredIff(inputs: seq<Input>, policy: Policy, i: nat)
    requires i < |inputs|
    ensures ReplyAt(inputs, policy, i).Restored? <==>
              exists k :: 0 <= k < i && inputs[k].task == inputs[i].task && ReplyAt(inputs, policy, k) == Result(true)
                          && InvocationAt(inputs, policy, k) in inputs[i].intact
    ensures forall k :: 0 <= k < i && inputs[k].task == inputs[i].task && ReplyAt(inputs, policy, k) == Result(true)
                        && ReplyAt(inputs, policy, i).Restored? ==>
              ReplyAt(inputs, policy, i).of == InvocationAt(inputs, policy, k)
  {
    hide RunAll, Exhausted, Attempted, NewId, WithTerminal;
    var earlier, task := inputs[..i], inputs[i].task;
    var s := RunAll(earlier, policy);
    assert forall k :: 0 <= k < i ==> earlier[..k] == inputs[..k];
    var success := FirstSuccess(s.log, Binding(task));
    RestoredFromLog(s, inputs[i], policy);
    forall k | 0 <= k < i && inputs[k].task == task && ReplyAt(inputs, policy, k) == Result(true)
      ensures success == Some(InvocationAt(inputs, policy, k))
    {
      AcceptedIsFound(earlier, policy, k);
    }
    if success.Some? {
      var r :| r in s.log && SucceededWith(r, Binding(task)) && r.of == success.value;
      var k := SuccessOrigin(earlier, policy, r);
      SharedKeys(inputs[k].task, task);
      NewIdReplay(RunAll(inputs[..k], policy).log, inputs[k].task);
    }
  }

  lemma RestoredFromLog(s: State, input: Input, policy: Policy)
    ensures var success, reply := FirstSuccess(s.log, Binding(input.task)), RunOnce(s, input, policy).1;
            && (reply.Restored? <==> success.Some? && success.value in input.intact)
            && (reply.Restored? ==> reply.of == success.value)
  {
    hide FirstSuccess, LastStop, Exhausted, Trips, WithTerminal;
  }

  lemma NewIdReplay(log: Log, task: AgentTask)
    ensures NewId(log, task).replay == Binding(task)
  {
  }

  // ----- The circuit -----

  ghost predicate CircuitSound(log: Log, policy: Policy) {
    forall package, signature :: Trips(log, package, signature, policy) ==> Halted(log, package)
  }

  /** Only an outcome of the package with that signature adds to its failures. */
  lemma TripsAfter(log: Log, r: Record, package: PackageKey, signature: string, policy: Policy)
    requires Trips(log + [r], package, signature, policy) && !FailureOf(package, signature)(r)
    ensures Trips(log, package, signature, policy)
  {
    CountExtend(log, r, FailureOf(package, signature));
  }

  lemma HaltedAfter(log: Log, r: Record, package: PackageKey)
    requires Halted(log, package)
    ensures Halted(log + [r], package)
  {
    var t :| t in log && Stops(t, package);
    assert t in log + [r];
  }

  lemma CircuitQuiet(log: Log, r: Record, policy: Policy)
    requires CircuitSound(log, policy) && !r.Outcome?
    ensures CircuitSound(log + [r], policy)
  {
    forall package, signature | Trips(log + [r], package, signature, policy) ensures Halted(log + [r], package) {
      TripsAfter(log, r, package, signature, policy);
      HaltedAfter(log, r, package);
    }
  }

  lemma CircuitTerminal(log: Log, reason: Reason, scope: Scope, package: PackageKey, cause: string, policy: Policy)
    requires CircuitSound(log, policy)
    ensures CircuitSound(WithTerminal(log, reason, scope, package, cause), policy)
  {
    hide CircuitSound;
    CircuitQuiet(log, Terminal(reason, scope, package, cause), policy);
  }

  lemma WithTerminalHalts(log: Log, reason: Reason, package: PackageKey, cause: string)
    ensures Halted(WithTerminal(log, reason, PackageScope, package, cause), package)
    ensures forall r :: r in log ==> r in WithTerminal(log, reason, PackageScope, package, cause)
  {
    var t := Terminal(reason, PackageScope, package, cause);
    var after := WithTerminal(log, reason, PackageScope, package, cause);
    if after == log {
      var r :| r in log && r.Terminal? && r.reason == reason && r.scope == PackageScope && r.cause == cause && r.package == package;
      assert Stops(r, package);
    } else {
      assert after == log + [t];
      assert t in after && Stops(t, package);
    }
  }

  lemma AttemptedCircuit(s: State, input: Input, policy: Policy)
    requires CircuitSound(s.log, policy) && !input.crash.BeforeTerminal?
    ensures CircuitSound(Attempted(s, input, policy).0.log, policy)
  {
    hide CircuitSound, Trips, Halted, WithTerminal;
    var replay := Binding(input.task);
    var id := InvocationId(replay, Count(s.log, InvocationOf(replay.package)) + 1);
    var r, o := Invocation(id, input.now), OutcomeOf(id, input.provider);
    CircuitQuiet(s.log, r, policy);
    OutcomeCircuit(s.log + [r], o, policy);
  }

  /** After an outcome the circuit is sound if nothing tripped, or once the terminal is written. */
  lemma OutcomeCircuit(log: Log, o: Record, policy: Policy)
    requires CircuitSound(log, policy) && o.Outcome?
    ensures var package := o.of.replay.package;
            var done := log + [o];
            if Trips(done, package, o.signature, policy)
            then CircuitSound(WithTerminal(done, CircuitOpen, PackageScope, package, o.signature), policy)
            else CircuitSound(done, policy)
  {
    hide Trips, Halted, WithTerminal;
    var package, done := o.of.replay.package, log + [o];
    forall p, signature | Trips(done, p, signature, policy) && !(p == package && signature == o.signature)
      ensures Halted(done, p)
    {
      TripsAfter(log, o, p, signature, policy);
      HaltedAfter(log, o, p);
    }
    if Trips(done, package, o.signature, policy) {
      var after := WithTerminal(done, CircuitOpen, PackageScope, package, o.signature);
      WithTerminalHalts(done, CircuitOpen, package, o.signature);
      forall p, signature | Trips(after, p, signature, policy) ensures Halted(after, p) {
        if p != package {
          TerminalTrips(done, CircuitOpen, package, o.signature, p, signature, policy);
          HaltedStays(done, after, p);
        }
      }
    }
  }

  lemma TerminalTrips(log: Log, reason: Reason, package: PackageKey, cause: string, p: PackageKey, signature: string, policy: Policy)
    requires Trips(WithTerminal(log, reason, PackageScope, package, cause), p, signature, policy)
    ensures Trips(log, p, signature, policy)
  {
    CountExtend(log, Terminal(reason, PackageScope, package, cause), FailureOf(p, signature));
  }

  lemma HaltedStays(before: Log, after: Log, package: PackageKey)
    requires Halted(before, package) && forall r :: r in before ==> r in after
    ensures Halted(after, package)
  {
  }

  /** Unless a crash falls before the terminal write, the threshold of equal failures opens the circuit. */
  lemma {:induction false} CircuitOpens(inputs: seq<Input>, policy: Policy)
    requires ValidPolicy(policy) && forall i :: 0 <= i < |inputs| ==> !inputs[i].crash.BeforeTerminal?
    ensures CircuitSound(RunAll(inputs, policy).log, policy)
  {
    if inputs != [] {
      hide CircuitSound, Attempted, Exhausted, WithTerminal, Halted;
      var s, input := RunAll(inputs[..|inputs| - 1], policy), inputs[|inputs| - 1];
      CircuitOpens(inputs[..|inputs| - 1], policy);
      AttemptedCircuit(s, input, policy);
      forall reason, scope ensures CircuitSound(WithTerminal(s.log, reason, scope, Binding(input.task).package, ""), policy) {
        CircuitTerminal(s.log, reason, scope, Binding(input.task).package, "", policy);
      }
    }
  }

  // ----- The runtime over one case's records -----

  /** The first success does not change when records are added. */
  lemma {:induction false} FirstSuccessStays(log: Log, more: Log, replay: ReplayKey)
    requires FirstSuccess(log, replay).Some?
    ensures FirstSuccess(log + more, replay) == FirstSuccess(log, replay)
    decreases |more|
  {
    if more == [] {
      assert log + more == log;
    } else {
      FirstSuccessStays(log, more[..|more| - 1], replay);
      assert (log + more)[..|log + more| - 1] == log + more[..|more| - 1];
    }
  }

  class AgentRunRuntime {
    const policy: Policy
    var records: Log
    var calls: nat

    constructor (policy: Policy)
      ensures records == [] && calls == 0 && this.policy == policy
    {
      this.policy := policy;
      records, calls := [], 0;
    }

    ghost function Current(): State
      reads this
    {
      State(records, calls)
    }

    method Counted(f: Record -> bool) returns (n: nat)
      ensures n == Count(records, f)
    {
      n := 0;
      for i := 0 to |records|
        invariant n == Count(records[..i], f)
      {
        assert records[..i + 1] == records[..i] + [records[i]];
        CountExtend(records[..i], records[i], f);
        if f(records[i]) { n := n + 1; }
      }
      assert records[..|records|] == records;
    }

    method Restorable(replay: ReplayKey) returns (id: Option<InvocationId>)
      ensures id == FirstSuccess(records, replay)
    {
      id := None;
      for i := 0 to |records|
        invariant id == None && FirstSuccess(records[..i], replay) == None
      {
        assert records[..i + 1][..i] == records[..i];
        if SucceededWith(records[i], replay) {
          id := Some(records[i].of);
          FirstSuccessStays(records[..i + 1], records[i + 1..], replay);
          assert records[..i + 1] + records[i + 1..] == records;
          return;
        }
      }
      assert records[..|records|] == records;
    }

    method ActiveTerminal(package: PackageKey) returns (reason: Option<Reason>)
      ensures reason == LastStop(records, package)
    {
      var i := |records|;
      assert records[..i] == records;
      while i > 0
        invariant 0 <= i <= |records|
        invariant LastStop(records[..i], package) == LastStop(records, package)
      {
        i := i - 1;
        assert records[..i + 1][..i] == records[..i];
        if Stops(records[i], package) { return Some(records[i].reason); }
      }
      reason := None;
    }

    method PutTerminal(reason: Reason, scope: Scope, package: PackageKey, cause: string)
      modifies this`records
      ensures records == WithTerminal(old(records), reason, scope, package, cause)
    {
      var duplicate := exists r :: r in records && r.Terminal? && r.reason == reason && r.scope == scope && r.cause == cause
                                   && (scope.CaseScope? || r.package == package);
      if !duplicate { records := records + [Terminal(reason, scope, package, cause)]; }
    }

    method Run(input: Input) returns (reply: Reply)
      modifies this`records, this`calls
      ensures (Current(), reply) == RunOnce(old(Current()), input, policy)
    {
      hide FirstSuccess, LastStop, Trips, WithTerminal, Pending, Aged;
      var replay := Binding(input.task);
      var package := replay.package;
      var success := Restorable(replay);
      if success.Some? {
        if success.value in input.intact { return Restored(success.value); }
        PutTerminal(ReplayUnavailable, PackageScope, package, "");
        return Stopped(ReplayUnavailable);
      }
      var halt := ActiveTerminal(package);
      if halt.Some? { return Stopped(halt.value); }
      var invocations := Counted(AnyInvocation());
      var attempts := Counted(InvocationOf(package));
      if Pending(records) {
        PutTerminal(IncompletePrior, CaseScope, package, "");
        return Stopped(IncompletePrior);
      }
      if invocations >= policy.maxModelCalls {
        PutTerminal(CallBudget, CaseScope, package, "");
        return Stopped(CallBudget);
      }
      if attempts >= policy.maxAttempts {
        PutTerminal(PackageBudget, PackageScope, package, "");
        return Stopped(PackageBudget);
      }
      if Aged(records, input.now, policy.maxElapsed) {
        PutTerminal(ElapsedBudget, CaseScope, package, "");
        return Stopped(ElapsedBudget);
      }
      reply := Invoke(input, InvocationId(replay, attempts + 1));
    }

    method Invoke(input: Input, id: InvocationId) returns (reply: Reply)
      requires id == InvocationId(Binding(input.task), Count(records, InvocationOf(Binding(input.task).package)) + 1)
      modifies this`records, this`calls
      ensures (Current(), reply) == Attempted(old(Current()), input, policy)
    {
      hide WithTerminal;
      records := records + [Invocation(id, input.now)];
      if input.crash.BeforeCall? { return Crashed; }
      calls := calls + 1;
      if input.crash.BeforeOutcome? { return Crashed; }
      records := records + [OutcomeOf(id, input.provider)];
      var signature := SignatureOf(input.provider);
      if signature != "" {
        var failures := Counted(FailureOf(id.replay.package, signature));
        if failures >= policy.failureThreshold {
          if input.crash.BeforeTerminal? { return Crashed; }
          PutTerminal(CircuitOpen, PackageScope, id.replay.package, signature);
          return Stopped(CircuitOpen);
        }
      }
      reply := if input.provider.Throws? then Rethrown else Result(input.provider.accepted);
    }
  }
}
