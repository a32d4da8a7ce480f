/**
 The adapter over the real controller and repository objects: each of its operations is a move of the update system
 (src-tauri/src/desktop_capabilities/app_update/tauri_adapter.rs:80-102, 279-298, 506-516, 636-659, 1137-1144).
 */
module UpdateAdapter {
  import opened Bytes
  import opened UpdateController
  import opened StagingDisk
  import Staging
  import UpdateHistory
  import S = UpdateSystem

  function FileVersion(file: Option<Stored>): Option<real> {
    if file.Some? && file.value.content.Json? && file.value.content.metadata.version.Semver? then
      Some(file.value.content.metadata.version.order)
    else None
  }

  /** The repository as the update system sees it; `null` stands for a repository that could not be opened. */
  function View(repository: Staging.Repository?): S.Repository
    requires repository != null ==> repository.Parsed()
    reads if repository == null then {} else {repository, repository.disk}
  {
    if repository == null then S.Unavailable
    else S.Opened(if repository.staged.None? then None else Some(repository.staged.value.version.order),
                  FileVersion(repository.disk.now.metadata))
  }

  /** An update that the running version has not reached yet. */
  function Unreached(found: Option<Metadata>, running: VersionText): Option<Metadata> {
    if found.Some? && found.value.version.Semver? && running.Semver? && found.value.version.order <= running.order then None
    else found
  }

  /** What the runtime starts with: an open repository, reconciled with the running version if that succeeds. */
  method StartRepository(disk: Disk, verify: Verifier, packagePath: string, running: VersionText)
    returns (repository: Staging.Repository?)
    requires disk.Valid()
    modifies disk
    ensures repository != null ==> repository.Valid() && repository.Parsed()
    ensures S.Startable(View(repository))
    ensures disk.Smooth(old(disk.calls), disk.calls) ==>
              repository != null && repository.staged == Unreached(Recovered(verify, old(disk.now)), running)
  {
    var found := Staging.Repository.Open(disk, verify, packagePath);
    if found.Refused? {
      return null;
    }
    repository := found.value;
    var r := repository.ReconcileCurrentVersion(running);
    assert r.Done? ==> r == Staging.Done(if r.value then true else false);
  }

  method PrepareCheckedRelease(repository: Staging.Repository?, release: Release) returns (input: Input)
    requires repository != null ==> repository.Valid() && repository.Parsed()
    modifies if repository == null then {} else {repository, repository.disk}
    ensures repository != null ==> repository.Valid() && repository.Parsed()
    ensures exists clear :: (View(repository), input) == S.Prepared(old(View(repository)), release, clear)
  {
    if repository == null {
      assert (View(repository), StagingDiscardFailed) == S.Prepared(View(repository), release, S.ClearOk);
      return StagingDiscardFailed;
    }
    ghost var before := View(repository);
    var discarded := repository.DiscardIfOlderThan(release.version);
    assert discarded.Done? ==> discarded == Staging.Done(if discarded.value then true else false);
    input := if discarded.Done? then CheckSucceeded(Some(release)) else StagingDiscardFailed;
    ghost var clear := if discarded.Done? then S.ClearOk else S.ClearFails(View(repository).disk != before.disk);
    assert (View(repository), input) == S.Prepared(before, release, clear);
  }

  /** `rewinds`: whether the downloaded file can be read from its start again. */
  method StageDownloadedPackage(
    repository: Staging.Repository?, candidate: Staging.Candidate, package: Content, rewinds: bool)
    returns (ok: bool)
    requires repository != null ==> repository.Valid() && repository.Parsed()
    modifies if repository == null then {} else {repository, repository.disk}
    ensures repository != null ==> repository.Valid() && repository.Parsed()
    ensures exists outcome :: (View(repository), ok) == S.StageInto(old(View(repository)), candidate.version, outcome)
    ensures ok ==> rewinds && repository != null && repository.staged == Some(Staging.Describe(candidate)) &&
                   Durable(repository.disk.Value(), Some(Json(Staging.Describe(candidate))), Some(package))
    ensures (rewinds && repository != null && old(repository.Accepts(candidate)) &&
             repository.verify(package, candidate.signature) &&
             repository.disk.Smooth(old(repository.disk.calls), old(repository.disk.calls) + 11)) ==> ok
    ensures !rewinds ==> View(repository) == old(View(repository))
  {
    ghost var before := View(repository);
    if repository == null || !rewinds {
      assert (before, false) == S.StageInto(before, candidate.version, S.NotPromoted(S.FileBefore, S.RecordBefore));
      return false;
    }
    var staged, _, _, _, _ := repository.Stage(candidate, package);
    ok := staged.Done?;
    ghost var outcome := Outcome(before, View(repository), candidate.version, ok);
    assert (View(repository), ok) == S.StageInto(before, candidate.version, outcome);
  }

  /** How a stage that ends with this view has ended. */
  ghost function Outcome(before: S.Repository, after: S.Repository, version: real, ok: bool): S.StageOutcome
    requires before.Opened? && after.Opened?
  {
    if ok then S.Promoted
    else
      S.NotPromoted(
        if after.disk == before.disk then S.FileBefore else if after.disk.None? then S.NoFile else S.NewFile,
        if after.staged == before.staged then S.RecordBefore
        else if after.staged.None? then S.NoRecord else S.RecordOfFile)
  }

  // ---------- Publishing ----------

  class Publisher {
    const controller: UpdateController
    var published: seq<Snapshot>

    constructor (controller: UpdateController)
      ensures this.controller == controller && published == []
    {
      this.controller := controller;
      published := [];
    }

    /** None when the controller refused the input. */
    method TransitionAndPublish(input: Input, m: Moment) returns (effects: Option<seq<Effect>>)
      modifies this, controller
      ensures var (after, result) := Handled(old(controller.Value()), input, m);
              && controller.Value() == after
              && effects == (if result.Accepted? then Some(result.effects) else None)
              && published == old(published) + if result.Accepted? then [after.snapshot] else []
      ensures effects.Some? ==> published[|published| - 1].sequence == old(controller.snapshot.sequence) + 1
    {
      var before := controller.snapshot.sequence;
      UpdateHistory.SequenceAndErrors(controller.Value(), UpdateHistory.Event(input, m));
      var r := controller.Handle(input, m);
      if r.Rejected? {
        return None;
      }
      published := published + [controller.snapshot];
      return Some(r.effects);
    }
  }

  // ---------- Installing ----------

  datatype Installation = NotInstalled | Installed(handle: Staging.Handle)

  /**
   The installer runs only on a package that has just verified, and the repository is cleared only after it succeeded
   and asked for that; a refused package has been cleared already.
   */
  method InstallVerifiedOffline(repository: Staging.Repository, installs: bool, completeNow: bool)
    returns (ok: bool, attempted: Installation)
    requires repository.Valid()
    modifies repository, repository.disk
    ensures repository.Valid()
    ensures attempted.Installed? <==>
            old(repository.staged).Some? && old(repository.disk.now).package.Some? &&
            repository.verify(old(repository.disk.now).package.value.content, old(repository.staged).value.signature)
    ensures attempted.Installed? ==> attempted.handle.version == old(repository.staged).value.version &&
                                     attempted.handle.path == repository.packagePath
    ensures ok <==> attempted.Installed? && installs &&
                    (completeNow ==> repository.disk.Smooth(old(repository.disk.calls), repository.disk.calls))
    ensures attempted.Installed? && !(installs && completeNow) ==>
              repository.staged == old(repository.staged) && repository.disk.Value() == old(repository.disk.Value())
    ensures ok && completeNow ==> repository.staged.None? && Staging.Cleared(repository.disk.Value())
  {
    var verified := repository.VerifyForInstall();
    if verified.Refused? {
      return false, NotInstalled;
    }
    attempted := Installed(verified.value);
    if !installs {
      return false, attempted;
    }
    if completeNow {
      var completed := repository.CompleteInstall(verified.value);
      if completed.Refused? {
        return false, attempted;
      }
    }
    return true, attempted;
  }

  datatype Replacement = Replaced | RolledBack | RollbackFailed

  /** The three places of an application replacement and what each holds. */
  class Places<T(==)> {
    var destination: Option<T>
    var candidate: Option<T>
    var backup: Option<T>

    constructor (destination: T, candidate: T)
      ensures this.destination == Some(destination) && this.candidate == Some(candidate) && backup == None
    {
      this.destination, this.candidate, backup := Some(destination), Some(candidate), None;
    }

    /**
     The original is always in its place or in the backup: in place when nothing was replaced or the replacement was
     undone, in the backup when the candidate took its place or undoing failed. `renames` says which renames succeed.
     */
    method ReplaceWithRollback(renames: (bool, bool, bool), postOk: bool) returns (r: Replacement)
      requires destination.Some? && candidate.Some?
      modifies this
      ensures r == Replaced <==> renames.0 && renames.1 && postOk
      ensures r == Replaced ==> destination == old(candidate) && backup == old(destination)
      ensures r == RolledBack <==> !renames.0 || (!(renames.1 && postOk) && renames.2)
      ensures r == RolledBack ==>
                destination == old(destination) && backup == if renames.0 then None else old(backup)
      ensures r == RollbackFailed ==>
                backup == old(destination) && destination == if renames.1 then old(candidate) else None
      ensures candidate == if renames.0 && renames.1 then None else old(candidate)
    {
      if !renames.0 {
        return RolledBack;
      }
      destination, backup := None, destination;
      var replaced := renames.1;
      if replaced {
        destination, candidate := candidate, None;
      }
      if !replaced || !postOk {
        if !renames.2 {
          return RollbackFailed;
        }
        destination, backup := backup, None;
        return RolledBack;
      }
      return Replaced;
    }
  }
}
