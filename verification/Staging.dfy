/** The repository of the single staged update (src-tauri/src/desktop_capabilities/app_update/staging.rs:163-375). */
module Staging {
  import opened Bytes
  import opened UpdateController
  import opened StagingDisk

  datatype StagingError = InvalidCandidate | NotNewer | VerificationFailed | StorageFailed | NoStagedUpdate

  datatype Outcome<T> = Done(value: T) | Refused(error: StagingError)

  datatype Candidate = Candidate(version: real, signature: string, target: string, kind: InstallKind)

  function Describe(candidate: Candidate): Metadata {
    Metadata(Semver(candidate.version), candidate.signature, candidate.target, candidate.kind)
  }

  /** A package verified for installation. */
  datatype Handle = Handle(version: VersionText, path: string, target: string, kind: InstallKind)

  // ---------- The phases of a promotion ----------

  /** Before the package is renamed: both lasting names are as they were. */
  ghost predicate Before(s: State, start: State) {
    && s.now.metadata == start.now.metadata && s.now.package == start.now.package
    && s.metadatas <= start.metadatas && s.packages <= start.packages
  }

  /** Between the two renames: the new package beside the old metadata. */
  ghost predicate Between(s: State, start: State, package: Content) {
    && s.now.metadata == start.now.metadata && s.now.package == Some(Stored(package, true))
    && s.metadatas <= start.metadatas && s.packages <= start.packages + iset{Some(package)}
  }

  /** After the metadata is renamed; the new package is durable by then. */
  ghost predicate Published(s: State, start: State, package: Content, m: Metadata) {
    && s.now.metadata == Some(Stored(Json(m), true)) && s.now.package == Some(Stored(package, true))
    && s.metadatas <= start.metadatas + iset{Some(Json(m))} && s.packages == iset{Some(package)}
  }

  /** The phases follow one another; they start at `from`, `j` and `k`. */
  ghost predicate Promotion(
    trace: seq<State>, from: nat, j: nat, k: nat, start: State, package: Content, m: Metadata)
  {
    && from <= j <= k <= |trace|
    && (forall i :: from <= i < j ==> Before(trace[i], start))
    && (forall i :: j <= i < k ==> Between(trace[i], start, package))
    && (forall i :: k <= i < |trace| ==> Published(trace[i], start, package, m))
  }

  ghost predicate AllShrunk(trace: seq<State>, from: nat, start: State) {
    forall i :: from <= i < |trace| ==> Shrunk(trace[i], start)
  }

  ghost predicate Cleared(s: State) {
    && s.now == Files(None, None, None, None)
    && Durable(s, None, None)
  }

  /** Every state a crash can meet here leaves, under the metadata name, what it could leave before, `m` or nothing. */
  ghost predicate AllWithin(trace: seq<State>, from: nat, start: State, m: Metadata) {
    forall i :: from <= i < |trace| ==> Within(trace[i], start, m)
  }

  ghost predicate Within(s: State, start: State, m: Metadata) {
    s.metadatas <= start.metadatas + iset{Some(Json(m)), None}
  }

  /** The disk went only through states that removals from `start` explain. */
  twostate predicate OnlyRemoved(disk: Disk)
    reads disk
  {
    && old(disk.trace) <= disk.trace
    && AllShrunk(disk.trace, |old(disk.trace)|, old(disk.Value()))
    && Shrunk(disk.Value(), old(disk.Value()))
  }

  ghost function Swept(s: State): State {
    Put(Put(s, MetadataFile, None), PackageFile, None)
  }

  ghost function WithoutTemporaries(s: State): State {
    Put(Put(s, PackageTemp, None), MetadataTemp, None)
  }

  method RemoveBoth(disk: Disk) returns (ok: bool)
    requires disk.Valid()
    modifies disk
    ensures disk.Valid() && OnlyRemoved(disk)
    ensures ok ==> disk.Value() == Swept(old(disk.Value()))
    ensures if disk.fails(old(disk.calls)) then disk.Value() == old(disk.Value()) else disk.now.metadata.None?
    ensures !disk.fails(old(disk.calls)) && disk.fails(old(disk.calls) + 1) ==>
              disk.Value() == Put(old(disk.Value()), MetadataFile, None)
    ensures ok <==> disk.Smooth(old(disk.calls), disk.calls)
    ensures old(disk.calls) < disk.calls <= old(disk.calls) + 2 && disk.readFaults == old(disk.readFaults)
    ensures ok ==> disk.calls == old(disk.calls) + 2
  {
    ok := disk.Remove(MetadataFile);
    if ok {
      ok := disk.Remove(PackageFile);
    }
  }

  method RemoveTemporaries(disk: Disk) returns (ok: bool)
    requires disk.Valid()
    modifies disk
    ensures disk.Valid() && OnlyRemoved(disk)
    ensures ok ==> disk.Value() == WithoutTemporaries(old(disk.Value()))
    ensures disk.now.metadata == old(disk.now).metadata && disk.now.package == old(disk.now).package
    ensures ok <==> disk.Smooth(old(disk.calls), disk.calls)
    ensures old(disk.calls) < disk.calls && disk.readFaults == old(disk.readFaults)
  {
    ok := disk.Remove(MetadataTemp);
    if ok {
      ok := disk.Remove(PackageTemp);
    }
  }

  /** `recover_metadata`; only a read fault makes it discard what could be recovered. */
  method RecoverMetadata(disk: Disk, verify: Verifier) returns (r: Outcome<Option<Metadata>>)
    requires disk.Valid()
    modifies disk
    ensures disk.Valid() && OnlyRemoved(disk)
    ensures r.Done? ==> r.value == Recovered(verify, disk.now)
    ensures disk.readFaults == old(disk.readFaults) ==>
              Recovered(verify, old(disk.now)) == if r.Done? then r.value else None
    ensures old(disk.calls) <= disk.calls <= old(disk.calls) + 3 && old(disk.readFaults) <= disk.readFaults
    ensures r.Refused? || disk.readFaults > old(disk.readFaults) ==> !disk.Smooth(old(disk.calls), disk.calls)
    ensures r.Done? && old(disk.now).metadata.None? ==> disk.calls == old(disk.calls) + 2
    ensures r.Done? && r.value.Some? ==> disk.Value() == old(disk.Value()) && disk.trace == old(disk.trace)
    ensures r.Done? && r.value.None? ==> disk.Value() == Swept(old(disk.Value()))
    ensures r.Refused? ==> r.error == StorageFailed
  {
    if disk.now.metadata.None? || disk.now.package.None? {
      var ok := RemoveBoth(disk);
      return if ok then Done(None) else Refused(StorageFailed);
    }
    var text := disk.Read(MetadataFile);
    if text.Some? && text.value.Json? {
      var m := text.value.metadata;
      if m.version.Semver? && verify(disk.now.package.value.content, m.signature) {
        return Done(Some(m));
      }
    }
    var ok := RemoveBoth(disk);
    return if ok then Done(None) else Refused(StorageFailed);
  }

  lemma ExtendBetween(
    trace: seq<State>, from: nat, j: nat, start: State, package: Content, m: Metadata, s: State)
    requires Promotion(trace, from, j, |trace|, start, package, m) && Between(s, start, package)
    ensures Promotion(trace + [s], from, j, |trace| + 1, start, package, m)
  {
    hide Before, Between, Published;
  }

  lemma ExtendPublished(
    trace: seq<State>, from: nat, j: nat, k: nat, start: State, package: Content, m: Metadata, s: State)
    requires Promotion(trace, from, j, k, start, package, m) && Published(s, start, package, m)
    ensures Promotion(trace + [s], from, j, k, start, package, m)
  {
    hide Before, Between, Published;
  }

  /** Only the temporary metadata changes. */
  method WriteMetadataTemp(
    disk: Disk, m: Metadata, package: Content, ghost start: State, ghost from: nat, ghost j: nat)
    returns (ok: bool)
    requires disk.Valid() && Between(disk.Value(), start, package) && disk.packages == iset{Some(package)}
    requires Promotion(disk.trace, from, j, |disk.trace|, start, package, m)
    modifies disk
    ensures disk.Valid() && old(disk.trace) <= disk.trace
    ensures Between(disk.Value(), start, package) && disk.packages == iset{Some(package)}
    ensures Promotion(disk.trace, from, j, |disk.trace|, start, package, m)
    ensures ok ==> disk.now.metadataTemp == Some(Stored(Json(m), true))
    ensures ok <==> disk.Smooth(old(disk.calls), disk.calls)
    ensures old(disk.calls) <= disk.calls <= old(disk.calls) + 3 && disk.readFaults == old(disk.readFaults)
    ensures ok ==> disk.calls == old(disk.calls) + 3
  {
    hide Promotion;
    ghost var before := disk.trace;
    ok := disk.Create(MetadataTemp);
    ExtendBetween(before, from, j, start, package, m, disk.Value());
    if ok {
      before := disk.trace;
      ok := disk.Write(MetadataTemp, Json(m));
      ExtendBetween(before, from, j, start, package, m, disk.Value());
      if ok {
        before := disk.trace;
        ok := disk.Sync(MetadataTemp);
        ExtendBetween(before, from, j, start, package, m, disk.Value());
      }
    }
  }

  /** `write_metadata`: with the new package in place and durable, publishes the metadata. */
  method WriteMetadata(disk: Disk, m: Metadata, package: Content, ghost start: State, ghost from: nat, ghost j: nat)
    returns (ok: bool, ghost k: nat)
    requires disk.Valid() && Between(disk.Value(), start, package) && disk.packages == iset{Some(package)}
    requires Promotion(disk.trace, from, j, |disk.trace|, start, package, m)
    modifies disk
    ensures disk.Valid() && old(disk.trace) <= disk.trace
    ensures Promotion(disk.trace, from, j, k, start, package, m) && |old(disk.trace)| <= k <= |disk.trace|
    ensures if k < |disk.trace| then Published(disk.Value(), start, package, m) else Between(disk.Value(), start, package)
    ensures ok ==> k < |disk.trace| && Durable(disk.Value(), Some(Json(m)), Some(package))
    ensures ok <==> disk.Smooth(old(disk.calls), disk.calls)
    ensures old(disk.calls) <= disk.calls <= old(disk.calls) + 5 && disk.readFaults == old(disk.readFaults)
    ensures ok ==> disk.calls == old(disk.calls) + 5
  {
    hide Promotion;
    ok := WriteMetadataTemp(disk, m, package, start, from, j);
    k := |disk.trace|;
    if ok {
      ghost var before := disk.trace;
      ok := disk.Rename(MetadataTemp, MetadataFile);
      if !ok {
        ExtendBetween(before, from, j, start, package, m, disk.Value());
        k := |disk.trace|;
        return;
      }
      ExtendPublished(before, from, j, k, start, package, m, disk.Value());
      before := disk.trace;
      ok := disk.SyncDirectory();
      ExtendPublished(before, from, j, k, start, package, m, disk.Value());
    }
  }

  /**
   The closure of `stage`: writes the package beside the current one, verifies it, and promotes it. `j` and `k` are the
   places in the trace where the package and the metadata are renamed.
   */
  method Promote(disk: Disk, verify: Verifier, candidate: Candidate, package: Content)
    returns (r: Outcome<Metadata>, ghost j: nat, ghost k: nat)
    requires disk.Valid()
    modifies disk
    ensures disk.Valid() && old(disk.trace) <= disk.trace
    ensures Promotion(disk.trace, |old(disk.trace)|, j, k, old(disk.Value()), package, Describe(candidate))
    ensures |old(disk.trace)| <= j <= k <= |disk.trace|
    ensures if k < |disk.trace| then Published(disk.Value(), old(disk.Value()), package, Describe(candidate))
            else if j < |disk.trace| then Between(disk.Value(), old(disk.Value()), package)
            else Before(disk.Value(), old(disk.Value()))
    ensures j < |disk.trace| ==> verify(package, candidate.signature)
    ensures r.Done? ==> k < |disk.trace| && r.value == Describe(candidate) &&
                        Durable(disk.Value(), Some(Json(r.value)), Some(package))
    ensures r.Refused? ==> r.error == StorageFailed || (r.error == VerificationFailed && j == |disk.trace|)
    ensures r == Refused(VerificationFailed) ==> !verify(package, candidate.signature)
    ensures old(disk.calls) <= disk.calls <= old(disk.calls) + 10 && disk.readFaults == old(disk.readFaults)
    ensures r.Done? ==> disk.calls == old(disk.calls) + 10
    ensures r == Refused(StorageFailed) ==> !disk.Smooth(old(disk.calls), disk.calls)
    ensures verify(package, candidate.signature) && disk.Smooth(old(disk.calls), old(disk.calls) + 4) ==> j < |disk.trace|
    ensures j < |disk.trace| && disk.fails(old(disk.calls) + 4) ==> k == |disk.trace|
  {
    ghost var start := disk.Value();
    ghost var from := |disk.trace|;
    var ok := WritePackage(disk, package);
    j, k := |disk.trace|, |disk.trace|;
    if !ok {
      return Refused(StorageFailed), j, k;
    }
    if !verify(package, candidate.signature) {
      return Refused(VerificationFailed), j, k;
    }
    ok := disk.Rename(PackageTemp, PackageFile);
    if !ok {
      j, k := |disk.trace|, |disk.trace|;
      return Refused(StorageFailed), j, k;
    }
    ok := disk.SyncDirectory();
    k := |disk.trace|;
    if !ok {
      return Refused(StorageFailed), j, k;
    }
    ok, k := WriteMetadata(disk, Describe(candidate), package, start, from, j);
    return if ok then Done(Describe(candidate)) else Refused(StorageFailed), j, k;
  }

  /** Writes and syncs the temporary package; nothing else changes. */
  method WritePackage(disk: Disk, package: Content) returns (ok: bool)
    requires disk.Valid()
    modifies disk
    ensures disk.Valid() && old(disk.trace) <= disk.trace
    ensures Before(disk.Value(), old(disk.Value()))
    ensures forall i :: |old(disk.trace)| <= i < |disk.trace| ==> Before(disk.trace[i], old(disk.Value()))
    ensures ok ==> disk.now.packageTemp == Some(Stored(package, true))
    ensures ok <==> disk.Smooth(old(disk.calls), disk.calls)
    ensures old(disk.calls) <= disk.calls <= old(disk.calls) + 3 && disk.readFaults == old(disk.readFaults)
    ensures ok ==> disk.calls == old(disk.calls) + 3
  {
    ok := disk.Create(PackageTemp);
    if ok {
      ok := disk.Write(PackageTemp, package);
      if ok {
        ok := disk.Sync(PackageTemp);
      }
    }
  }

  /** Metadata on the disk is the record or strictly newer, as far as both exist and parse. */
  predicate NoOlder(file: Option<Stored>, staged: Option<Metadata>) {
    file.Some? && file.value.content.Json? && staged.Some? &&
    file.value.content.metadata.version.Semver? && staged.value.version.Semver? ==>
      || file.value.content.metadata == staged.value
      || file.value.content.metadata.version.order > staged.value.version.order
  }

  /** What a stage can leave under the metadata name. */
  predicate OldNewOrNothing(after: Option<Stored>, before: Option<Stored>, m: Metadata) {
    after.None? || after == before || after == Some(Stored(Json(m), true))
  }

  /** One repository operation: the staged version stays, vanishes, or grows. */
  predicate Advances(before: Option<Metadata>, after: Option<Metadata>) {
    || after == before || after.None? || before.None?
    || (before.value.version.Semver? && after.value.version.Semver? &&
        after.value.version.order > before.value.version.order)
  }

  /** What happened to the record after the promotion of a stage. */
  datatype Restoration = Untouched | Restored | Unrestored

  /** The record a recovery leaves when the promotion of `m` was stopped after some of its renames. */
  function AfterStop(
    verify: Verifier, before: Option<Metadata>, package: Content, m: Metadata, renamed: bool, published: bool)
    : Option<Metadata>
  {
    if published then Some(m)
    else if renamed then if before.Some? && verify(package, before.value.signature) then before else None
    else before
  }

  predicate Outdated(staged: Option<Metadata>, bound: VersionText, orEqual: bool) {
    && staged.Some? && staged.value.version.Semver? && bound.Semver?
    && (bound.order > staged.value.version.order || (orEqual && bound.order == staged.value.version.order))
  }

  /** A recovery finds this record; without one there is nothing to find. */
  predicate Found(verify: Verifier, staged: Option<Metadata>, files: Files) {
    staged == Recovered(verify, files) && (staged.None? ==> files.metadata.None? && files.package.None?)
  }

  class Repository {
    const disk: Disk
    const verify: Verifier
    const packagePath: string
    var staged: Option<Metadata>

    ghost predicate Valid()
      reads this, disk
    {
      disk.Valid()
    }

    /** The cached record is what a recovery would find on the disk. */
    ghost predicate Faithful()
      reads this, disk
    {
      Found(verify, staged, disk.now)
    }

    /** The version of the cached record parses; it is refused otherwise. */
    predicate Parsed()
      reads this
    {
      staged.Some? ==> staged.value.version.Semver?
    }

    /** The disk holds nothing older than the record; unlike `Faithful`, failures do not end this. */
    predicate NotBehind()
      reads this, disk
    {
      NoOlder(disk.now.metadata, staged)
    }

    constructor (disk: Disk, verify: Verifier, packagePath: string, staged: Option<Metadata>)
      requires disk.Valid()
      ensures this.disk == disk && this.verify == verify && this.packagePath == packagePath && this.staged == staged
    {
      this.disk, this.verify, this.packagePath, this.staged := disk, verify, packagePath, staged;
    }

    static method Open(disk: Disk, verify: Verifier, packagePath: string) returns (r: Outcome<Repository>)
      requires disk.Valid()
      modifies disk
      ensures disk.Valid() && OnlyRemoved(disk)
      ensures r.Done? ==> fresh(r.value) && r.value.disk == disk && r.value.verify == verify &&
                          r.value.packagePath == packagePath &&
                          r.value.Faithful() && r.value.Parsed() && r.value.NotBehind()
      ensures r.Done? && r.value.staged.Some? ==> r.value.staged == Recovered(verify, old(disk.now))
      ensures r.Done? ==> disk.Value() == if r.value.staged.Some? then WithoutTemporaries(old(disk.Value()))
                                          else Swept(WithoutTemporaries(old(disk.Value())))
      ensures r.Refused? ==> r.error == StorageFailed
      // Only a read fault makes opening overlook an update.
      ensures r.Done? && disk.readFaults == old(disk.readFaults) ==> r.value.staged == Recovered(verify, old(disk.now))
      ensures old(disk.calls) <= disk.calls <= old(disk.calls) + 5 && old(disk.readFaults) <= disk.readFaults
      ensures r.Refused? || disk.readFaults > old(disk.readFaults) ==> !disk.Smooth(old(disk.calls), disk.calls)
      ensures r.Done? && old(disk.now).metadata.None? ==> disk.calls == old(disk.calls) + 4
    {
      var ok := disk.Remove(PackageTemp);
      if !ok {
        return Refused(StorageFailed);
      }
      ok := disk.Remove(MetadataTemp);
      if !ok {
        return Refused(StorageFailed);
      }
      var found := RecoverMetadata(disk, verify);
      if found.Refused? {
        return Refused(found.error);
      }
      var repository := new Repository(disk, verify, packagePath, found.value);
      return Done(repository);
    }

    method Clear() returns (ok: bool)
      requires Valid()
      modifies this, disk
      ensures Valid() && OnlyRemoved(disk)
      ensures ok ==> staged.None? && Cleared(disk.Value()) && Faithful()
      ensures !ok ==> staged == old(staged)
      ensures old(NotBehind()) ==> NotBehind()
      ensures ok <==> disk.Smooth(old(disk.calls), disk.calls)
      ensures old(disk.calls) <= disk.calls && disk.readFaults == old(disk.readFaults)
      // A failed clear leaves a record that is no longer on the disk, unless nothing was removed.
      ensures !ok && old(Faithful()) && staged.Some? ==> (Faithful() <==> disk.fails(old(disk.calls)))
      ensures disk.fails(old(disk.calls)) ==> disk.Value() == old(disk.Value())
      ensures !disk.fails(old(disk.calls)) && disk.fails(old(disk.calls) + 1) ==>
                !ok && disk.Value() == Put(old(disk.Value()), MetadataFile, None)
    {
      ok := RemoveBoth(disk);
      if !ok {
        return;
      }
      ok := RemoveTemporaries(disk);
      if !ok {
        return;
      }
      ok := disk.SyncDirectory();
      if !ok {
        return;
      }
      staged := None;
    }

    /**
     Succeeds without touching the disk exactly when the package verifies; otherwise trust ends and everything is
     cleared, unless clearing fails.
     */
    method VerifyForInstall() returns (r: Outcome<Handle>)
      requires Valid()
      modifies this, disk
      ensures Valid() && OnlyRemoved(disk)
      ensures r == Refused(NoStagedUpdate) <==> old(staged).None?
      ensures r.Done? <==> old(staged).Some? && old(disk.now).package.Some? &&
                           verify(old(disk.now).package.value.content, old(staged).value.signature)
      ensures r.Done? ==> staged == old(staged) && disk.Value() == old(disk.Value()) && disk.trace == old(disk.trace) &&
                          r.value == Handle(staged.value.version, packagePath, staged.value.target, staged.value.kind)
      ensures r == Refused(VerificationFailed) ==> Cleared(disk.Value()) && staged.None? && Faithful()
      ensures r.Refused? && r.error != VerificationFailed ==> staged == old(staged)
      ensures r.Refused? ==> r.error in {NoStagedUpdate, VerificationFailed, StorageFailed}
      ensures old(Faithful()) && old(staged).Some? ==> r.Done?
      // After a clear that failed half-way the record can outlive its metadata file; success does not look at that file.
      ensures r.Done? ==>
                (Faithful() <==> staged.value.version.Semver? && disk.now.metadata.Some? &&
                                 disk.now.metadata.value.content == Json(staged.value))
      ensures old(NotBehind()) ==> NotBehind()
      ensures r != Refused(StorageFailed) && old(Faithful()) ==> Faithful()
      ensures old(disk.calls) <= disk.calls && disk.readFaults == old(disk.readFaults)
      ensures r == Refused(StorageFailed) ==> !disk.Smooth(old(disk.calls), disk.calls)
      ensures r.Done? ==> disk.calls == old(disk.calls)
    {
      if staged.None? {
        return Refused(NoStagedUpdate);
      }
      if disk.now.package.None? || !verify(disk.now.package.value.content, staged.value.signature) {
        var ok := Clear();
        return Refused(if ok then VerificationFailed else StorageFailed);
      }
      return Done(Handle(staged.value.version, packagePath, staged.value.target, staged.value.kind));
    }

    method CompleteInstall(installed: Handle) returns (r: Outcome<()>)
      requires Valid()
      modifies this, disk
      ensures Valid() && OnlyRemoved(disk)
      ensures r.Done? ==> old(staged).Some? && installed.version == old(staged).value.version &&
                          installed.path == packagePath && Cleared(disk.Value()) && staged.None? && Faithful()
      ensures r.Done? ==> disk.Smooth(old(disk.calls), disk.calls)
      ensures r.Refused? ==> r.error in {NoStagedUpdate, InvalidCandidate, StorageFailed}
      ensures r == Refused(NoStagedUpdate) <==> old(staged).None?
      ensures r == Refused(InvalidCandidate) <==>
              old(staged).Some? && (installed.version != old(staged).value.version || installed.path != packagePath)
      ensures r.Refused? ==> staged == old(staged)
      ensures r.Refused? && r.error != StorageFailed ==> disk.trace == old(disk.trace)
      ensures old(staged).Some? && installed.version == old(staged).value.version && installed.path == packagePath &&
              !disk.fails(old(disk.calls)) && disk.fails(old(disk.calls) + 1) ==>
                r == Refused(StorageFailed) && disk.Value() == Put(old(disk.Value()), MetadataFile, None)
      ensures old(NotBehind()) ==> NotBehind()
      ensures r != Refused(StorageFailed) && old(Faithful()) ==> Faithful()
      ensures old(disk.calls) <= disk.calls && disk.readFaults == old(disk.readFaults)
      ensures r == Refused(StorageFailed) ==> !disk.Smooth(old(disk.calls), disk.calls)
    {
      if staged.None? {
        return Refused(NoStagedUpdate);
      }
      if installed.version != staged.value.version || installed.path != packagePath {
        return Refused(InvalidCandidate);
      }
      var ok := Clear();
      return if ok then Done(()) else Refused(StorageFailed);
    }

    /**
     Clears the staged update when `bound` is above it, or also when equal if `orEqual`: `reconcile_current_version`
     with the running version and `discard_if_older_than` with the replacement.
     */
    method ClearUpTo(bound: VersionText, orEqual: bool) returns (r: Outcome<bool>)
      requires Valid()
      modifies this, disk
      ensures Valid() && OnlyRemoved(disk)
      ensures r == Done(true) ==>
                Outdated(old(staged), bound, orEqual) && Cleared(disk.Value()) && staged.None? && Faithful()
      ensures r == Done(false) ==>
                (old(staged).Some? ==> !Outdated(old(staged), bound, orEqual)) &&
                staged == old(staged) && disk.Value() == old(disk.Value()) && disk.trace == old(disk.trace)
      ensures r == Refused(InvalidCandidate) <==> old(staged).Some? && bound.Malformed?
      ensures !old(Parsed()) && bound.Semver? ==> r == Refused(StorageFailed)
      ensures old(staged).None? ==> r == Done(false)
      ensures old(Parsed()) && old(staged).Some? && bound.Semver? ==>
                (r == Done(false) <==> !Outdated(old(staged), bound, orEqual))
      ensures r.Refused? ==> staged == old(staged)
      ensures r.Refused? && r.error != StorageFailed ==> disk.Value() == old(disk.Value())
      ensures r.Refused? && disk.trace != old(disk.trace) ==>
                r.error == StorageFailed && Outdated(old(staged), bound, orEqual)
      ensures old(NotBehind()) ==> NotBehind()
      ensures r != Refused(StorageFailed) && old(Faithful()) ==> Faithful()
      ensures old(disk.calls) <= disk.calls && disk.readFaults == old(disk.readFaults)
      ensures r == Refused(StorageFailed) && old(Parsed()) ==> !disk.Smooth(old(disk.calls), disk.calls)
      ensures r.Refused? ==> r.error in {InvalidCandidate, StorageFailed}
    {
      if staged.None? {
        return Done(false);
      }
      if bound.Malformed? {
        return Refused(InvalidCandidate);
      }
      if staged.value.version.Malformed? {
        return Refused(StorageFailed);
      }
      if !Outdated(staged, bound, orEqual) {
        return Done(false);
      }
      var ok := Clear();
      return if ok then Done(true) else Refused(StorageFailed);
    }

    method ReconcileCurrentVersion(current: VersionText) returns (r: Outcome<bool>)
      requires Valid()
      modifies this, disk
      ensures Valid() && OnlyRemoved(disk)
      ensures r == Done(true) ==> old(staged).Some? && Cleared(disk.Value()) && staged.None? && Faithful() &&
                                  current.Semver? && old(staged).value.version.Semver? &&
                                  current.order >= old(staged).value.version.order
      ensures r == Done(false) ==>
                staged == old(staged) && disk.Value() == old(disk.Value()) && disk.trace == old(disk.trace) &&
                (staged.Some? && current.Semver? && staged.value.version.Semver? ==>
                   current.order < staged.value.version.order)
      ensures r == Refused(InvalidCandidate) <==> old(staged).Some? && current.Malformed?
      ensures old(staged).None? ==> r == Done(false)
      ensures !old(Parsed()) && current.Semver? ==> r == Refused(StorageFailed)
      ensures old(Parsed()) && old(staged).Some? && current.Semver? ==>
                (r == Done(false) <==> current.order < old(staged).value.version.order)
      ensures r.Refused? ==> staged == old(staged)
      ensures old(NotBehind()) ==> NotBehind()
      ensures r != Refused(StorageFailed) && old(Faithful()) ==> Faithful()
      ensures old(disk.calls) <= disk.calls && disk.readFaults == old(disk.readFaults)
      ensures r == Refused(StorageFailed) && old(Parsed()) ==> !disk.Smooth(old(disk.calls), disk.calls)
      ensures r.Refused? ==> r.error in {InvalidCandidate, StorageFailed}
    {
      r := ClearUpTo(current, true);
    }

    method DiscardIfOlderThan(replacement: VersionText) returns (r: Outcome<bool>)
      requires Valid()
      modifies this, disk
      ensures Valid() && OnlyRemoved(disk)
      ensures r == Done(true) ==> old(staged).Some? && Cleared(disk.Value()) && staged.None? && Faithful() &&
                                  replacement.Semver? && old(staged).value.version.Semver? &&
                                  replacement.order > old(staged).value.version.order
      ensures r == Refused(InvalidCandidate) <==> old(staged).Some? && replacement.Malformed?
      ensures !old(Parsed()) && replacement.Semver? ==> r == Refused(StorageFailed)
      ensures old(staged).None? ==> r == Done(false)
      ensures old(Parsed()) && old(staged).Some? && replacement.Semver? ==>
                (r == Done(false) <==> replacement.order <= old(staged).value.version.order)
      ensures r == Done(false) ==>
                staged == old(staged) && disk.Value() == old(disk.Value()) && disk.trace == old(disk.trace) &&
                (staged.Some? && replacement.Semver? && staged.value.version.Semver? ==>
                   replacement.order <= staged.value.version.order)
      ensures r.Refused? ==> staged == old(staged)
      ensures r.Refused? && r.error != StorageFailed ==> disk.Value() == old(disk.Value())
      ensures old(NotBehind()) ==> NotBehind()
      ensures r != Refused(StorageFailed) && old(Faithful()) ==> Faithful()
      ensures old(disk.calls) <= disk.calls && disk.readFaults == old(disk.readFaults)
      ensures r == Refused(StorageFailed) && old(Parsed()) ==> !disk.Smooth(old(disk.calls), disk.calls)
      ensures r.Refused? ==> r.error in {InvalidCandidate, StorageFailed}
    {
      r := ClearUpTo(replacement, false);
    }

    /** What `stage` does after a failed promotion. */
    method Restore() returns (recovered: bool)
      requires Valid()
      modifies this, disk
      ensures Valid() && OnlyRemoved(disk)
      ensures recovered ==> Faithful() && (staged.None? || staged == Recovered(verify, old(disk.now)))
      ensures recovered ==> Parsed()
      ensures recovered && disk.readFaults == old(disk.readFaults) ==> staged == Recovered(verify, old(disk.now))
      ensures old(disk.calls) <= disk.calls && old(disk.readFaults) <= disk.readFaults
      ensures !recovered || disk.readFaults > old(disk.readFaults) ==> !disk.Smooth(old(disk.calls), disk.calls)
      ensures !recovered ==> staged == old(staged)
      ensures disk.now.metadata.None? || disk.now.metadata == old(disk.now).metadata
    {
      var _ := disk.Remove(PackageTemp);
      var found := RecoverMetadata(disk, verify);
      recovered := found.Done?;
      if recovered {
        staged := found.value;
      }
    }

    /** The candidate is newer than the record, and the record can be compared. */
    predicate Accepts(candidate: Candidate)
      reads this
    {
      staged.Some? ==> staged.value.version.Semver? && candidate.version > staged.value.version.order
    }

    /** The rest of `stage`, from the creation of the package on. */
    method PromoteOrRestore(candidate: Candidate, package: Content)
      returns (r: Outcome<VersionText>, ghost promotion: seq<State>, ghost j: nat, ghost k: nat,
               restoration: Restoration)
      requires Valid() && Accepts(candidate)
      modifies this, disk
      ensures Valid() && old(disk.trace) <= promotion <= disk.trace
      ensures Promotion(promotion, |old(disk.trace)|, j, k, old(disk.Value()), package, Describe(candidate))
      ensures AllWithin(disk.trace, |old(disk.trace)|, old(disk.Value()), Describe(candidate))
      ensures j < |promotion| ==> verify(package, candidate.signature)
      ensures r.Done? ==> r.value == Semver(candidate.version) && staged == Some(Describe(candidate)) && Faithful() &&
                          promotion == disk.trace && k < |promotion| && restoration == Untouched &&
                          Durable(disk.Value(), Some(Json(Describe(candidate))), Some(package))
      ensures r.Refused? ==> if restoration == Restored then Faithful()
                             else restoration == Unrestored && staged == old(staged) && r.error == StorageFailed
      ensures r.Refused? ==> r.error == StorageFailed ||
                             (r.error == VerificationFailed && !verify(package, candidate.signature))
      ensures old(Faithful()) && restoration == Restored && disk.readFaults == old(disk.readFaults) ==>
                staged == AfterStop(verify, old(staged), package, Describe(candidate), j < |promotion|, k < |promotion|)
      ensures OldNewOrNothing(disk.now.metadata, old(disk.now).metadata, Describe(candidate))
      ensures old(NotBehind()) ==> Advances(old(staged), staged) && NotBehind()
      ensures Parsed()
      ensures old(Faithful()) ==>
                staged == old(staged) || staged == None || staged == Some(Describe(candidate))
      ensures r == Refused(StorageFailed) ==> !disk.Smooth(old(disk.calls), disk.calls)
      ensures verify(package, candidate.signature) ==>
                && (r.Refused? ==> !disk.Smooth(old(disk.calls), old(disk.calls) + 10))
                && (disk.Smooth(old(disk.calls), old(disk.calls) + 4) ==> j < |promotion|)
                && (restoration == Unrestored || disk.readFaults > old(disk.readFaults) ==>
                      disk.FailsTwice(old(disk.calls), disk.calls))
      ensures j < |promotion| && disk.fails(old(disk.calls) + 4) ==> k == |promotion|
      ensures r.Done? ==> disk.calls == old(disk.calls) + 10
      ensures old(disk.calls) <= disk.calls && old(disk.readFaults) <= disk.readFaults
    {
      hide Promotion, AllWithin, Published, Between, Before, AllShrunk, Shrunk;
      hide Recovered, AfterStop, NoOlder, Advances, Coherent, Surviving;
      ghost var start := disk.Value();
      ghost var m := Describe(candidate);
      var promoted;
      promoted, j, k := Promote(disk, verify, candidate, package);
      promotion, restoration := disk.trace, Untouched;
      PromotionIsWithin(promotion, |old(disk.trace)|, j, k, start, package, m);
      if promoted.Done? {
        PublishedIsFound(verify, disk.Value(), start, package, m);
        staged := Some(promoted.value);
        NewerAdvances(old(staged), disk.Value(), start, package, m);
        return Done(promoted.value.version), promotion, j, k, restoration;
      }
      ghost var stopped := disk.Value();
      StoppedSomewhere(verify, stopped, start, start, package, m);
      StopFinds(verify, stopped, start, package, m, staged, j < |promotion|, k < |promotion|);
      var recovered := Restore();
      restoration := if recovered then Restored else Unrestored;
      RemovalsAreWithin(promotion, disk.trace, |old(disk.trace)|, stopped, start, m);
      StopAdvances(verify, start.now.metadata, disk.now, old(staged), staged, m);
      return Refused(if recovered then promoted.error else StorageFailed), promotion, j, k, restoration;
    }

    /**
     The promotion part of the trace is returned as `promotion`; only removals follow it, and only after a failure.
     The record is untouched by a success and by a refusal before the promotion.
     */
    method Stage(candidate: Candidate, package: Content)
      returns (r: Outcome<VersionText>, ghost promotion: seq<State>, ghost j: nat, ghost k: nat,
               restoration: Restoration)
      requires Valid()
      modifies this, disk
      ensures Valid() && old(disk.trace) <= promotion <= disk.trace
      ensures old(staged).Some? && old(staged).value.version.Semver? ==>
                (r == Refused(NotNewer) <==> candidate.version <= old(staged).value.version.order)
      ensures r == Refused(NotNewer) ==> disk.trace == old(disk.trace) && old(staged).Some? && staged == old(staged) &&
                                         disk.Value() == old(disk.Value())
      // A record that cannot be compared, and a temporary package that cannot be removed, end it at once.
      ensures !old(Parsed()) || (old(Accepts(candidate)) && disk.fails(old(disk.calls))) ==>
                r == Refused(StorageFailed) && restoration == Untouched && disk.Value() == old(disk.Value()) &&
                disk.calls <= old(disk.calls) + 1
      ensures Promotion(promotion, |old(disk.trace)|, j, k, old(disk.Value()), package, Describe(candidate))
      ensures AllWithin(disk.trace, |old(disk.trace)|, old(disk.Value()), Describe(candidate))
      ensures j < |promotion| ==> verify(package, candidate.signature)
      ensures r.Done? ==> r.value == Semver(candidate.version) && staged == Some(Describe(candidate)) && Faithful() &&
                          promotion == disk.trace && k < |promotion| &&
                          Durable(disk.Value(), Some(Json(Describe(candidate))), Some(package))
      ensures r.Refused? && restoration != Restored ==> staged == old(staged) && r.error in {NotNewer, StorageFailed}
      ensures r.Refused? && restoration == Untouched ==> j == |promotion| && (old(Faithful()) ==> Faithful())
      ensures restoration == Restored ==> r.Refused? && Faithful()
      ensures restoration == Unrestored ==> r == Refused(StorageFailed)
      ensures r.Refused? ==> r.error in {NotNewer, StorageFailed} ||
                             (r.error == VerificationFailed && !verify(package, candidate.signature))
      // Only a read fault, or a stop between the renames with an old signature that does not fit, loses the record.
      ensures old(Faithful()) && restoration == Restored && disk.readFaults == old(disk.readFaults) ==>
                staged == AfterStop(verify, old(staged), package, Describe(candidate), j < |promotion|, k < |promotion|)
      ensures OldNewOrNothing(disk.now.metadata, old(disk.now).metadata, Describe(candidate))
      ensures old(Parsed()) ==> Parsed()
      ensures old(Parsed()) && old(NotBehind()) ==> Advances(old(staged), staged) && NotBehind()
      ensures old(Faithful()) ==>
                staged == old(staged) || staged == None || staged == Some(Describe(candidate))
      // Where it stops is decided by the first of its calls that fails.
      ensures r == Refused(StorageFailed) && old(Parsed()) ==> !disk.Smooth(old(disk.calls), disk.calls)
      ensures old(Accepts(candidate)) && verify(package, candidate.signature) ==>
                && (disk.Smooth(old(disk.calls), old(disk.calls) + 11) ==> r.Done?)
                && (disk.Smooth(old(disk.calls), old(disk.calls) + 5) ==> j < |promotion|)
                && (restoration == Unrestored || disk.readFaults > old(disk.readFaults) ==>
                      disk.FailsTwice(old(disk.calls), disk.calls))
      ensures j < |promotion| && disk.fails(old(disk.calls) + 5) ==> k == |promotion|
      ensures r.Done? ==> disk.calls == old(disk.calls) + 11 && restoration == Untouched
      ensures old(disk.calls) <= disk.calls && old(disk.readFaults) <= disk.readFaults
    {
      hide Promotion, AllWithin, Published, Between, Before, AllShrunk, Shrunk, AfterStop, Disk.Smooth, Disk.FailsTwice;
      hide Coherent, Surviving, Put, Durable, Recovered, Within, Describe, Cleared;
      ghost var start := disk.Value();
      ghost var m := Describe(candidate);
      promotion, j, k, restoration := disk.trace, |disk.trace|, |disk.trace|, Untouched;
      NothingPromoted(promotion, start, package, m);
      if staged.Some? {
        if staged.value.version.Malformed? {
          return Refused(StorageFailed), promotion, j, k, restoration;
        }
        if candidate.version <= staged.value.version.order {
          return Refused(NotNewer), promotion, j, k, restoration;
        }
      }
      var ok := disk.Remove(PackageTemp);
      TempRemoved(promotion, disk.Value(), start, package, m);
      TemporaryDoesNotMatter(verify, start);
      promotion, j, k := disk.trace, |disk.trace|, |disk.trace|;
      disk.FirstFails(old(disk.calls));
      if !ok {
        disk.Wider(old(disk.calls), old(disk.calls), disk.calls, old(disk.calls) + 5);
        disk.Wider(old(disk.calls), old(disk.calls), disk.calls, old(disk.calls) + 11);
        return Refused(StorageFailed), promotion, j, k, restoration;
      }
      ghost var middle := disk.Value();
      assert (old(Faithful()) ==> Faithful()) && (old(NotBehind()) ==> NotBehind());
      hide NoOlder, OldNewOrNothing, Advances;
      r, promotion, j, k, restoration := PromoteOrRestore(candidate, package);
      disk.Wider(old(disk.calls), old(disk.calls) + 1, disk.calls, disk.calls);
      disk.Wider(old(disk.calls), old(disk.calls) + 1, old(disk.calls) + 5, old(disk.calls) + 5);
      disk.Wider(old(disk.calls), old(disk.calls) + 1, old(disk.calls) + 11, old(disk.calls) + 11);
      PromotionFromStart(promotion, |old(disk.trace)|, j, k, middle, start, package, m);
      WithinFromStart(disk.trace, |old(disk.trace)|, middle, start, m);
    }
  }

  // ---------- Crashes and phases: helpers of `Stage` ----------

  lemma NothingPromoted(trace: seq<State>, start: State, package: Content, m: Metadata)
    ensures Promotion(trace, |trace|, |trace|, |trace|, start, package, m) && AllWithin(trace, |trace|, start, m)
  {
  }

  lemma TempRemoved(trace: seq<State>, s: State, start: State, package: Content, m: Metadata)
    requires s == start || s == Put(start, PackageTemp, None)
    ensures Promotion(trace + [s], |trace|, |trace| + 1, |trace| + 1, start, package, m)
    ensures AllWithin(trace + [s], |trace|, start, m)
  {
  }

  lemma TemporaryDoesNotMatter(verify: Verifier, s: State)
    ensures var t := Put(s, PackageTemp, None);
            && t.now.metadata == s.now.metadata && t.now.package == s.now.package
            && Recovered(verify, t.now) == Recovered(verify, s.now)
  {
  }

  lemma PromotionFromStart(
    trace: seq<State>, from: nat, j: nat, k: nat, middle: State, start: State, package: Content, m: Metadata)
    requires from < |trace| && Promotion(trace, from + 1, j, k, middle, package, m)
    requires trace[from] == middle && (middle == start || middle == Put(start, PackageTemp, None))
    ensures Promotion(trace, from, j, k, start, package, m)
  {
    forall i | from <= i < j
      ensures Before(trace[i], start)
    {
      if i == from {
      }
    }
  }

  lemma WithinFromStart(trace: seq<State>, from: nat, middle: State, start: State, m: Metadata)
    requires from < |trace| && AllWithin(trace, from + 1, middle, m)
    requires trace[from] == middle && (middle == start || middle == Put(start, PackageTemp, None))
    ensures AllWithin(trace, from, start, m)
  {
    forall i | from <= i < |trace|
      ensures Within(trace[i], start, m)
    {
      if i > from {
        assert Within(trace[i], middle, m);
      }
    }
  }

  lemma PromotionIsWithin(
    trace: seq<State>, from: nat, j: nat, k: nat, start: State, package: Content, m: Metadata)
    requires Promotion(trace, from, j, k, start, package, m)
    ensures AllWithin(trace, from, start, m)
  {
    forall i | from <= i < |trace|
      ensures Within(trace[i], start, m)
    {
      if i < j {
        assert Before(trace[i], start);
      } else if i < k {
        assert Between(trace[i], start, package);
      } else {
        assert Published(trace[i], start, package, m);
      }
    }
  }

  lemma RemovalsAreWithin(
    promotion: seq<State>, trace: seq<State>, from: nat, stopped: State, start: State, m: Metadata)
    requires promotion <= trace && AllWithin(promotion, from, start, m)
    requires Within(stopped, start, m) && AllShrunk(trace, |promotion|, stopped)
    ensures AllWithin(trace, from, start, m)
  {
    forall i | from <= i < |trace|
      ensures Within(trace[i], start, m)
    {
      if i < |promotion| {
        assert Within(promotion[i], start, m);
      } else {
        assert Shrunk(trace[i], stopped);
      }
    }
  }

  /** Wherever a promotion stops, a recovery finds the new metadata, the metadata that was there, or nothing. */
  lemma StoppedSomewhere(
    verify: Verifier, s: State, middle: State, start: State, package: Content, m: Metadata)
    requires Before(s, middle) || Between(s, middle, package) || Published(s, middle, package, m)
    requires middle == start || middle == Put(start, PackageTemp, None)
    ensures Within(s, start, m) && OldNewOrNothing(s.now.metadata, start.now.metadata, m)
    ensures var found := Recovered(verify, s.now);
            found.Some? ==>
              || found.value == m
              || (start.now.metadata.Some? && start.now.metadata.value.content == Json(found.value))
  {
  }

  /** Where the promotion stopped decides what the disk holds for a recovery. */
  lemma StopFinds(
    verify: Verifier, s: State, start: State, package: Content, m: Metadata, staged: Option<Metadata>,
    renamed: bool, published: bool)
    requires if published then Published(s, start, package, m)
             else if renamed then Between(s, start, package) else Before(s, start)
    requires published ==> m.version.Semver? && verify(package, m.signature)
    ensures staged == Recovered(verify, start.now) && (staged.None? ==> start.now.metadata.None?) ==>
              && Recovered(verify, s.now) == AfterStop(verify, staged, package, m, renamed, published)
              && Recovered(verify, s.now) in {None, staged, Some(m)}
  {
    if staged == Recovered(verify, start.now) && (staged.None? ==> start.now.metadata.None?) {
      if published {
        PublishedIsFound(verify, s, start, package, m);
      } else if renamed {
        KilledBetween(verify, s, start, package, staged);
      } else {
        KilledBefore(verify, s, start);
      }
    }
  }

  lemma NewerAdvances(before: Option<Metadata>, s: State, start: State, package: Content, m: Metadata)
    requires Published(s, start, package, m) && m.version.Semver?
    requires before.Some? ==> before.value.version.Semver? && m.version.order > before.value.version.order
    ensures Advances(before, Some(m)) && NoOlder(s.now.metadata, Some(m))
    ensures OldNewOrNothing(s.now.metadata, start.now.metadata, m)
  {
  }

  /** After a failed stage: whether the record was kept or recovered, it advances and the disk is not behind it. */
  lemma StopAdvances(
    verify: Verifier, file: Option<Stored>, now: Files, before: Option<Metadata>, after: Option<Metadata>, m: Metadata)
    requires OldNewOrNothing(now.metadata, file, m) && (after == before || after == Recovered(verify, now))
    requires m.version.Semver? && (before.Some? && before.value.version.Semver? ==> m.version.order > before.value.version.order)
    ensures (before.Some? ==> before.value.version.Semver?) && NoOlder(file, before) ==>
              Advances(before, after) && NoOlder(now.metadata, after)
  {
  }

  // ---------- Crashes ----------

  /** If changes persist in order, a crash before the package rename keeps the staged update. */
  lemma KilledBefore(verify: Verifier, s: State, start: State)
    requires Before(s, start)
    ensures Recovered(verify, s.now) == Recovered(verify, start.now)
  {
  }

  /** Between the renames the old metadata survives exactly when its signature fits the new package too. */
  lemma KilledBetween(verify: Verifier, s: State, start: State, package: Content, staged: Option<Metadata>)
    requires Between(s, start, package) && staged == Recovered(verify, start.now)
    requires staged.None? ==> start.now.metadata.None?
    ensures Recovered(verify, s.now) ==
            if staged.Some? && verify(package, staged.value.signature) then staged else None
  {
  }

  /** After the metadata rename the new update is found. */
  lemma PublishedIsFound(verify: Verifier, s: State, start: State, package: Content, m: Metadata)
    requires Published(s, start, package, m) && verify(package, m.signature) && m.version.Semver?
    ensures Recovered(verify, s.now) == Some(m)
  {
  }

  /**
   Power loss at any state of a `stage`, then any number of interrupted recoveries, with unsynced changes surviving in
   any subset: the last recovery finds nothing, the new metadata, or metadata that could already survive before; and
   what it finds verifies against the package on the disk.
   */
  lemma StageIsCrashSafe(
    verify: Verifier, start: State, m: Metadata, s: State, accidents: seq<Accident>, t: State)
    requires Coherent(s) && Within(s, start, m) && Leads(s, accidents, t)
    ensures var found := Recovered(verify, t.now);
            found.Some? ==>
              && (found.value == m || Some(Json(found.value)) in start.metadatas)
              && t.now.package.Some? && verify(t.now.package.value.content, found.value.signature)
  {
    YieldsASurvivor(verify, s, accidents, t);
  }

  /** When the directory was in sync at the start: nothing, the old update or the new one. */
  lemma OldOrNewOrNothing(
    verify: Verifier, start: State, before: Option<Metadata>, m: Metadata, s: State, accidents: seq<Accident>, t: State)
    requires start.metadatas == iset{if before.Some? then Some(Json(before.value)) else None}
    requires Coherent(s) && Within(s, start, m) && Leads(s, accidents, t)
    ensures Recovered(verify, t.now) in {None, before, Some(m)}
  {
    StageIsCrashSafe(verify, start, m, s, accidents, t);
  }

  /** Crashes and removals never make anything appear, so clearing and recovering are crash-safe as well. */
  lemma RemovalIsCrashSafe(
    verify: Verifier, start: State, s: State, accidents: seq<Accident>, t: State)
    requires Coherent(s) && Shrunk(s, start) && Leads(s, accidents, t)
    ensures var found := Recovered(verify, t.now);
            found.Some? ==>
              && Some(Json(found.value)) in start.metadatas
              && t.now.package.Some? && verify(t.now.package.value.content, found.value.signature)
  {
    YieldsASurvivor(verify, s, accidents, t);
  }

  /** After the metadata rename even an unsynced crash finds the new update, or the old one if it fits the new package. */
  lemma PowerLossWhenPublished(
    verify: Verifier, start: State, before: Option<Metadata>, s: State, package: Content, m: Metadata, t: State)
    requires start.metadatas == iset{if before.Some? then Some(Json(before.value)) else None}
    requires before.Some? ==> before.value.version.Semver?
    requires Published(s, start, package, m) && Restarts(s, t) && m.version.Semver? && verify(package, m.signature)
    ensures Recovered(verify, t.now) in
              {Some(m), if before.Some? && verify(package, before.value.signature) then before else None}
  {
  }

  /** What a restart can make a recovery find, exactly. */
  lemma RestartYieldsExactly(verify: Verifier, s: State, m: Metadata)
    ensures (exists t :: Restarts(s, t) && Recovered(verify, t.now) == Some(m)) <==>
            m.version.Semver? && Some(Json(m)) in s.metadatas &&
            exists package :: Some(package) in s.packages && verify(package, m.signature)
  {
    if m.version.Semver? && Some(Json(m)) in s.metadatas {
      if package :| Some(package) in s.packages && verify(package, m.signature) {
        var files := Files(Some(Stored(Json(m), true)), Some(Stored(package, true)), None, None);
        var t := State(files, iset{Some(Json(m))}, iset{Some(package)});
        assert Restarts(s, t) && Recovered(verify, t.now) == Some(m);
      }
    }
  }

  /**
   Removals by a recovery are not synced, so metadata that opening discarded, because its package was missing, can come
   back in place of the update being staged, if its signature fits the new package: "old, new or nothing" needs the
   directory to be in sync.
   */
  lemma DiscardedMetadataMayReturn(verify: Verifier, gone: Metadata, m: Metadata, package: Content)
    requires gone != m && gone.version.Semver? && verify(package, gone.signature)
    ensures var found := Files(Some(Stored(Json(gone), true)), None, None, None);
            var start := Swept(WithoutTemporaries(State(found, iset{Some(Json(gone))}, iset{None})));
            && Recovered(verify, found) == None && start.now == Files(None, None, None, None)
            && exists s, t :: Between(s, start, package) && Restarts(s, t) && Recovered(verify, t.now) == Some(gone)
  {
    var found := Files(Some(Stored(Json(gone), true)), None, None, None);
    var start := Swept(WithoutTemporaries(State(found, iset{Some(Json(gone))}, iset{None})));
    var s := State(Files(None, Some(Stored(package, true)), None, None), start.metadatas, iset{None, Some(package)});
    assert Between(s, start, package);
    RestartYieldsExactly(verify, s, gone);
    var t :| Restarts(s, t) && Recovered(verify, t.now) == Some(gone);
  }
}
