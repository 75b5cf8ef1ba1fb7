/**
 * The filesystem reference driver on a map from paths to texts, and what an execution through it
 * leaves in the target tree.  Text mode reading translates line ends, which the model keeps.
 */
module Filesystem {
  import opened Common
  import opened Cases
  import opened Workflow
  import opened Execution
  import Timestamps

  type Files = map<string, string>

  /** SHA-256, taken to be injective. */
  datatype Digest = Sha256(content: string)

  /** The change section of an approved plan, and the verified replacement in the artifact root. */
  datatype Change = Change(sourcePath: string, before: Digest, after: Digest, replacement: Option<string>)

  datatype FileCheckpoint = FileCheckpoint(content: string, sha: Digest)

  /** Text mode reading: every line end becomes a newline. */
  function Translated(content: string): string {
    if content == "" then ""
    else if content[0] != '\r' then [content[0]] + Translated(content[1..])
    else if |content| > 1 && content[1] == '\n' then "\n" + Translated(content[2..])
    else "\n" + Translated(content[1..])
  }

  /** Reading changes a text exactly when it holds a carriage return. */
  lemma {:induction false} TranslatedIff(content: string)
    ensures Translated(content) == content <==> '\r' !in content
    ensures '\r' !in Translated(content)
  {
    if content == "" {
    } else if content[0] != '\r' {
      TranslatedIff(content[1..]);
      assert content == [content[0]] + content[1..];
      assert Translated(content)[1..] == Translated(content[1..]);
    } else if |content| > 1 && content[1] == '\n' {
      TranslatedIff(content[2..]);
      assert Translated(content)[0] == '\n';
    } else {
      TranslatedIff(content[1..]);
      assert Translated(content)[0] == '\n';
    }
  }

  /** Where the file name begins: after the last slash. */
  function NameStart(path: string): (start: nat)
    ensures start <= |path| && (start > 0 ==> path[start - 1] == '/') && forall i :: start <= i < |path| ==> path[i] != '/'
  {
    if path == "" then 0
    else if path[|path| - 1] == '/' then |path|
    else NameStart(path[..|path| - 1])
  }

  /** The sibling the driver writes before it renames it over the target. */
  function TempName(path: string): string {
    path[..NameStart(path)] + "." + path[NameStart(path)..] + ".elcapitan.tmp"
  }

  lemma {:induction false} NameStartIs(path: string, start: nat)
    requires start <= |path| && (start > 0 ==> path[start - 1] == '/') && forall i :: start <= i < |path| ==> path[i] != '/'
    ensures NameStart(path) == start
  {
    if path != "" && path[|path| - 1] != '/' { NameStartIs(path[..|path| - 1], start); }
  }

  /** The sibling lies in the same directory, and its name says whose it is. */
  lemma TempNameIs(directory: string, name: string)
    requires directory == "" || directory[|directory| - 1] == '/'
    requires '/' !in name
    ensures TempName(directory + name) == directory + "." + name + ".elcapitan.tmp"
  {
    var path := directory + name;
    NameStartIs(path, |directory|);
    assert path[..|directory|] == directory && path[|directory|..] == name;
  }

  /** `_replace`: exclusive creation of the sibling, then a rename; raises when the sibling exists. */
  function Replaced(files: Files, path: string, content: string): Option<Files> {
    if TempName(path) in files then None else Some(files[path := content])
  }

  function Step(passed: bool): Attempt<ActionStep> { Returned(ActionStep(passed, "", None, false)) }

  function Preflight(change: Change): Files -> Attempt<ActionStep> {
    (files: Files) =>
      if change.sourcePath !in files || change.replacement.None? then Step(false)
      else Step(Sha256(files[change.sourcePath]) == change.before && Sha256(change.replacement.value) == change.after)
  }

  function TakeCheckpoint(change: Change): Files -> Attempt<FileCheckpoint> {
    (files: Files) =>
      if change.sourcePath !in files then Raised("missing")
      else Returned(FileCheckpoint(Translated(files[change.sourcePath]), Sha256(files[change.sourcePath])))
  }

  function DeployTo(change: Change, failDeploy: bool): (Files, FileCheckpoint) -> (Files, Attempt<ActionStep>) {
    (files: Files, checkpoint: FileCheckpoint) =>
      if failDeploy then (files, Step(false))
      else if change.replacement.None? then (files, Raised("missing"))
      else
        var content := Translated(change.replacement.value);
        match Replaced(files, change.sourcePath, content)
        case None => (files, Raised("exists"))
        case Some(written) => (written, Step(Sha256(written[change.sourcePath]) == change.after))
  }

  function RestoreTo(change: Change): (Files, FileCheckpoint) -> (Files, Attempt<ActionStep>) {
    (files: Files, checkpoint: FileCheckpoint) =>
      match Replaced(files, change.sourcePath, checkpoint.content)
      case None => (files, Raised("exists"))
      case Some(written) => (written, Step(Sha256(written[change.sourcePath]) == checkpoint.sha))
  }

  function FilesystemDriver(change: Change, failDeploy: bool): Driver<Files, FileCheckpoint> {
    Driver(Preflight(change), TakeCheckpoint(change), DeployTo(change, failDeploy), RestoreTo(change))
  }

  /** The two trees agree on every path but the target. */
  ghost predicate SameElsewhere(change: Change, a: Files, b: Files) {
    forall path :: path != change.sourcePath ==>
      (path in a <==> path in b) && (path in a ==> a[path] == b[path])
  }

  /** Deploying writes the target at most; passing means the target has the approved digest. */
  lemma DeployWritesTarget(change: Change, failDeploy: bool, files: Files, checkpoint: FileCheckpoint)
    ensures var (after, step) := FilesystemDriver(change, failDeploy).deploy(files, checkpoint);
            && SameElsewhere(change, files, after)
            && (Passed(step) ==> change.sourcePath in after && Sha256(after[change.sourcePath]) == change.after)
  {
  }

  /** A rollback that passes has put back exactly the bytes the checkpoint was taken from. */
  lemma RollbackRestores(change: Change, failDeploy: bool, original: Files, files: Files)
    requires change.sourcePath in original && SameElsewhere(change, original, files)
    ensures var driver := FilesystemDriver(change, failDeploy);
            var (after, step) := driver.rollback(files, driver.checkpoint(original).value);
            && SameElsewhere(change, original, after)
            && (Passed(step) ==> after == original)
  {
    var driver := FilesystemDriver(change, failDeploy);
    var (after, step) := driver.rollback(files, driver.checkpoint(original).value);
    var content := Translated(original[change.sourcePath]);
    if Replaced(files, change.sourcePath, content).Some? {
      assert after == files[change.sourcePath := content];
      PutBack(change, original, files, content);
    }
  }

  /** Writing one path of a tree that differs nowhere else. */
  lemma PutBack(change: Change, original: Files, files: Files, content: string)
    requires change.sourcePath in original && SameElsewhere(change, original, files)
    ensures SameElsewhere(change, original, files[change.sourcePath := content])
    ensures content == original[change.sourcePath] ==> files[change.sourcePath := content] == original
  {
  }

  /** After a deployment, a rollback passes exactly for targets without carriage returns. */
  lemma RollbackPassesIff(change: Change, failDeploy: bool, original: Files)
    requires change.sourcePath in original && TempName(change.sourcePath) !in original
    requires TempName(change.sourcePath) != change.sourcePath
    ensures var driver := FilesystemDriver(change, failDeploy);
            var checkpoint := driver.checkpoint(original).value;
            var deployed := driver.deploy(original, checkpoint).0;
            Passed(driver.rollback(deployed, checkpoint).1) <==> '\r' !in original[change.sourcePath]
  {
    TranslatedIff(original[change.sourcePath]);
  }

  /** A deployment of the replacement passes only when it is the approved one, without carriage returns. */
  lemma DeployPassesIff(change: Change, original: Files, checkpoint: FileCheckpoint)
    requires TempName(change.sourcePath) !in original && change.replacement.Some?
    requires Sha256(change.replacement.value) == change.after
    ensures Passed(FilesystemDriver(change, false).deploy(original, checkpoint).1) <==> '\r' !in change.replacement.value
  {
    TranslatedIff(change.replacement.value);
  }

  lemma TempNameDiffers(path: string)
    ensures TempName(path) != path
  {
    assert |TempName(path)| > |path|;
  }

  /** The rollback of a started execution passes exactly when the sibling was free and the original has no carriage
      return, and the tree is then the original one. */
  lemma RollbackAfterDeploy(change: Change, failDeploy: bool, original: Files)
    requires change.sourcePath in original
    ensures var driver := FilesystemDriver(change, failDeploy);
            var checkpoint := driver.checkpoint(original).value;
            var (restored, step) := driver.rollback(driver.deploy(original, checkpoint).0, checkpoint);
            && (Passed(step) <==> TempName(change.sourcePath) !in original && '\r' !in original[change.sourcePath])
            && (Passed(step) ==> restored == original)
            && (Passed(step) ==> step.value.restored.None?)
  {
    var driver := FilesystemDriver(change, failDeploy);
    var checkpoint := driver.checkpoint(original).value;
    DeployWritesTarget(change, failDeploy, original, checkpoint);
    RollbackRestores(change, failDeploy, original, driver.deploy(original, checkpoint).0);
    TempNameDiffers(change.sourcePath);
    if TempName(change.sourcePath) !in original { RollbackPassesIff(change, failDeploy, original); }
  }

  /** A deployment passes exactly when the driver works, the sibling is free and the replacement has no carriage return. */
  lemma DeployAfterPreflight(change: Change, failDeploy: bool, original: Files, checkpoint: FileCheckpoint)
    requires Passed(Preflight(change)(original))
    ensures Passed(FilesystemDriver(change, failDeploy).deploy(original, checkpoint).1) <==>
              !failDeploy && TempName(change.sourcePath) !in original && '\r' !in change.replacement.value
  {
    if TempName(change.sourcePath) !in original && !failDeploy { DeployPassesIff(change, original, checkpoint); }
  }

  /** Preflight passes exactly when target and replacement are there with the digests that were approved. */
  lemma PreflightIff(change: Change, files: Files)
    ensures Passed(Preflight(change)(files)) <==>
              && change.sourcePath in files && Sha256(files[change.sourcePath]) == change.before
              && change.replacement.Some? && Sha256(change.replacement.value) == change.after
  {
  }

  /** The target holds what was approved to be replaced, the replacement is what was approved, and the service is well. */
  predicate Startable(change: Change, env: Environment<Files>, files: Files) {
    && change.sourcePath in files && Sha256(files[change.sourcePath]) == change.before
    && change.replacement.Some? && Sha256(change.replacement.value) == change.after
    && env.observe(Baseline, files).Returned? && env.observe(Baseline, files).value.healthy
  }

  lemma PreparedIff(change: Change, failDeploy: bool, env: Environment<Files>, files: Files)
    ensures Prepared(FilesystemDriver(change, failDeploy), env, files) <==> Startable(change, env, files)
  {
    PreflightIff(change, files);
  }

  /** The service is well on the tree, there are probes and all of them pass, and the auditor, having cited the three
      pieces of evidence of this execution and nothing else, accepts it with an outcome. */
  predicate Kept(env: Environment<Files>, files: Files, execution: string) {
    && env.observe(AfterDeploy, files).Returned? && env.observe(AfterDeploy, files).value.healthy
    && env.probes != [] && (forall i :: 0 <= i < |env.probes| ==> env.probes[i](files) == Returned(true))
    && var evidence := {Evidence.Preflight(execution), Deployment(execution), Probes(execution)};
    && var audit := env.audit(files, evidence);
    && audit.Returned? && audit.value.valid && audit.value.succeeded && audit.value.cited == evidence
    && audit.value.decision.Accept? && audit.value.validatedOutcomes != []
  }

  /** A started execution is kept exactly when the replacement could be written as it is and the tree with it is kept. */
  lemma AcceptedIff(change: Change, failDeploy: bool, env: Environment<Files>, files: Files, execution: string)
    requires Startable(change, env, files)
    ensures var driver, replaced := FilesystemDriver(change, failDeploy), files[change.sourcePath := change.replacement.value];
            var checkpoint := driver.checkpoint(files).value;
            && (Accepted(driver, env, files, checkpoint, execution) <==>
                  && !failDeploy && TempName(change.sourcePath) !in files && '\r' !in change.replacement.value
                  && Kept(env, replaced, execution))
            && (Accepted(driver, env, files, checkpoint, execution) ==> driver.deploy(files, checkpoint).0 == replaced)
  {
    PreflightIff(change, files);
    DeployAfterPreflight(change, failDeploy, files, FilesystemDriver(change, failDeploy).checkpoint(files).value);
    TranslatedIff(change.replacement.value);
  }

  /** Nothing stands in the way of putting the original back. */
  predicate Restorable(change: Change, original: Files) {
    && change.sourcePath in original
    && TempName(change.sourcePath) !in original && '\r' !in original[change.sourcePath]
  }

  /**
   * An execution through the filesystem driver, from release to its end.  Once started it ends remediated if it was
   * accepted; otherwise rolled back if the original can be put back and the service is well on it, and blocked if not.
   */
  method ExecuteOnFilesystem(service: ExecutionService<Files, FileCheckpoint>, change: Change, failDeploy: bool,
                             caseId: string, originator: string, jobId: string, package: Package,
                             execution: string, at: Timestamps.Stamp)
    returns (result: Result<Outcome, ActionError>)
    requires service.Valid() && service.driver == FilesystemDriver(change, failDeploy)
    requires caseId in service.store.cases && caseId != "" && execution != "" && Timestamps.Valid(at)
    modifies service, service.store
    ensures service.Valid() && caseId in service.store.cases
    ensures SameElsewhere(change, old(service.world), service.world)
    ensures var c, w, s := old(service.store.cases[caseId]), old(service.world), service.store.cases[caseId];
            if !(Released(c, originator, jobId, package, Timestamps.Instant(at)) && Startable(change, service.env, w)) then
              && result.Err? && service.store.Contents() == old(service.store.Contents()) && service.world == w
              && service.calls == old(service.calls) && service.records == old(service.records)
            else
              var replaced := w[change.sourcePath := change.replacement.value];
              var accepted := !failDeploy && TempName(change.sourcePath) !in w && '\r' !in change.replacement.value
                              && Kept(service.env, replaced, execution);
              var health := service.env.observe(AfterRollback, w);
              var restored := Restorable(change, w) && health.Returned? && health.value.healthy;
              && (s.state.Remediated? <==> accepted)
              && (s.state.RolledBack? <==> !accepted && restored)
              && (s.state.Blocked? <==> !accepted && !restored)
              && (s.state.Blocked? ==> s.blockedFrom == Some(RollingBack))
              && (s.state.RolledBack? ==> service.world == w)
              && (s.state.Remediated? ==> service.world == replaced && Sha256(replaced[change.sourcePath]) == change.after)
  {
    hide TransitionCase, Transitions, Kinds, Replaced, TempName, Translated;
    ghost var w := service.world;
    if change.sourcePath in w {
      var checkpoint := service.driver.checkpoint(w).value;
      DeployWritesTarget(change, failDeploy, w, checkpoint);
      RollbackRestores(change, failDeploy, w, service.driver.deploy(w, checkpoint).0);
      RollbackAfterDeploy(change, failDeploy, w);
    }
    PreparedIff(change, failDeploy, service.env, w);
    if Startable(change, service.env, w) { AcceptedIff(change, failDeploy, service.env, w, execution); }
    result := service.Execute(caseId, originator, jobId, package, execution, at);
  }
}
