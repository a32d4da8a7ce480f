/** Histories of repository calls, failures included (src-tauri/src/desktop_capabilities/app_update/staging.rs:177-327). */
module StagingHistory {
  import opened Bytes
  import opened UpdateController
  import opened StagingDisk
  import opened Staging

  datatype Call =
    | StageCall(candidate: Candidate, package: Content)
    | VerifyCall
    | CompleteCall(handle: Handle)
    | ReconcileCall(current: VersionText)
    | DiscardCall(replacement: VersionText)
    | ReopenCall                              // the process ends and the next one opens the repository

  /** What a call did to the record: kept it or replaced it, cleared it, or lost it in a recovery. */
  datatype Fate = Kept | Emptied | Lost

  predicate Clears(call: Call) {
    call.VerifyCall? || call.CompleteCall? || call.ReconcileCall? || call.DiscardCall?
  }

  /** The record is still there: the same update, or a strictly newer one. */
  predicate Grown(before: Option<Metadata>, after: Option<Metadata>) {
    before.Some? ==>
      after.Some? &&
      (after == before ||
       (before.value.version.Semver? && after.value.version.Semver? &&
        after.value.version.order > before.value.version.order))
  }

  /** The package that a call stages is good, but the signature of the record does not fit it. */
  predicate Displaces(verify: Verifier, call: Call, record: Metadata) {
    call.StageCall? && verify(call.package, call.candidate.signature) && !verify(call.package, record.signature)
  }

  /**
   One call; null when the next process cannot open the repository. `broke` says that the clear or the recovery in it
   failed. A record that could be found is lost only if a read failed, or if the stage of a package that the old
   signature does not fit failed.
   */
  method Perform(repository: Repository, call: Call) returns (next: Repository?, fate: Fate, broke: bool)
    requires repository.Valid() && repository.Parsed() && repository.NotBehind()
    modifies repository, repository.disk
    ensures next == null ==> call.ReopenCall? && repository.staged == old(repository.staged) &&
                             !repository.disk.Smooth(old(repository.disk.calls), repository.disk.calls)
    ensures old(repository.disk.calls) <= repository.disk.calls
    ensures old(repository.disk.readFaults) <= repository.disk.readFaults
    ensures next != null ==> next == repository || fresh(next)
    ensures next != null ==> next.disk == repository.disk && next.verify == repository.verify
    ensures next != null ==> next.Valid() && next.Parsed() && next.NotBehind()
    ensures next != null && fate == Kept ==> Grown(old(repository.staged), next.staged)
    ensures next != null && fate != Kept ==>
              old(repository.staged).Some? && next.staged.None? && (fate == Emptied <==> Clears(call))
    ensures next != null && fate == Lost && old(repository.Faithful()) ==>
              || repository.disk.readFaults > old(repository.disk.readFaults)
              || (Displaces(repository.verify, call, old(repository.staged).value) &&
                  !repository.disk.Smooth(old(repository.disk.calls), repository.disk.calls))
    ensures next != null && !broke && (call.ReopenCall? || old(repository.Faithful())) ==> next.Faithful()
    ensures broke ==> !call.ReopenCall? && !repository.disk.Smooth(old(repository.disk.calls), repository.disk.calls)
  {
    var had := repository.staged.Some?;
    next, broke := repository, false;
    match call {
      case StageCall(candidate, package) =>
        var _, _, _, _, restoration := repository.Stage(candidate, package);
        broke := restoration == Unrestored;
      case VerifyCall =>
        var r := repository.VerifyForInstall();
        broke := r == Refused(StorageFailed);
      case CompleteCall(handle) =>
        var r := repository.CompleteInstall(handle);
        broke := r == Refused(StorageFailed);
      case ReconcileCall(current) =>
        var r := repository.ReconcileCurrentVersion(current);
        assert r.Done? ==> r == Done(if r.value then true else false);
        broke := r == Refused(StorageFailed);
      case DiscardCall(replacement) =>
        var r := repository.DiscardIfOlderThan(replacement);
        assert r.Done? ==> r == Done(if r.value then true else false);
        broke := r == Refused(StorageFailed);
      case ReopenCall =>
        var successor := Repository.Open(repository.disk, repository.verify, repository.packagePath);
        next := if successor.Done? then successor.value else null;
    }
    fate := Kept;
    if next != null && had && next.staged.None? {
      fate := if Clears(call) then Emptied else Lost;
    }
  }

  /** What there is between two calls: the record of the repository, and the files on the disk. */
  datatype Situation = Situation(record: Option<Metadata>, files: Files)

  /** What became of the record in a call, whether a clear or a recovery in it failed, and whether a read failed. */
  datatype Event = Event(fate: Fate, broke: bool, misread: bool)

  ghost predicate Step(verify: Verifier, before: Situation, call: Call, event: Event, after: Situation) {
    && (event.fate == Kept ==> Grown(before.record, after.record))
    && (event.fate != Kept ==> before.record.Some? && after.record.None? && (event.fate == Emptied <==> Clears(call)))
    && (event.fate == Lost && Found(verify, before.record, before.files) ==>
          event.misread || Displaces(verify, call, before.record.value))
    && (!event.broke && (call.ReopenCall? || Found(verify, before.record, before.files)) ==>
          Found(verify, after.record, after.files))
  }

  /** The steps of a history fit together. */
  ghost predicate Steps(verify: Verifier, history: seq<Situation>, events: seq<Event>, calls: seq<Call>) {
    && |history| == |events| + 1 && |events| <= |calls|
    && (forall k :: 0 <= k < |events| ==> Step(verify, history[k], calls[k], events[k], history[k + 1]))
  }

  lemma {:induction false} VersionsGrow(
    verify: Verifier, history: seq<Situation>, events: seq<Event>, calls: seq<Call>, i: nat, j: nat)
    requires Steps(verify, history, events, calls) && i <= j < |history|
    requires forall k :: i <= k < j ==> events[k].fate == Kept
    ensures Grown(history[i].record, history[j].record)
    decreases j - i
  {
    if i < j {
      VersionsGrow(verify, history, events, calls, i, j - 1);
      assert events[j - 1].fate == Kept;
      assert Step(verify, history[j - 1], calls[j - 1], events[j - 1], history[j - 1 + 1]);
    }
  }

  /** A record that a recovery would find stays one until a clear or a recovery fails; no other failure ends this. */
  lemma {:induction false} StaysFound(
    verify: Verifier, history: seq<Situation>, events: seq<Event>, calls: seq<Call>, i: nat, j: nat)
    requires Steps(verify, history, events, calls) && i <= j < |history|
    requires Found(verify, history[i].record, history[i].files) || (0 < i && calls[i - 1].ReopenCall? && !events[i - 1].broke)
    requires forall k :: i <= k < j ==> !events[k].broke
    ensures Found(verify, history[j].record, history[j].files)
    decreases j - i
  {
    if i < j {
      StaysFound(verify, history, events, calls, i, j - 1);
      assert !events[j - 1].broke;
      assert Step(verify, history[j - 1], calls[j - 1], events[j - 1], history[j - 1 + 1]);
    } else if 0 < i {
      assert Step(verify, history[i - 1], calls[i - 1], events[i - 1], history[i - 1 + 1]);
    }
  }

  /** Nothing in this step can cost the record: no clear, no misread, and no good package its signature does not fit. */
  predicate Harmless(verify: Verifier, before: Situation, call: Call, event: Event) {
    !event.broke && !event.misread && event.fate != Emptied &&
    (before.record.Some? ==> !Displaces(verify, call, before.record.value))
  }

  /** Any number of harmless steps, with failing calls and restarts among them, lose no update. */
  lemma {:induction false} NothingIsLost(
    verify: Verifier, history: seq<Situation>, events: seq<Event>, calls: seq<Call>, i: nat, j: nat)
    requires Steps(verify, history, events, calls) && i <= j < |history|
    requires Found(verify, history[i].record, history[i].files)
    requires forall k :: i <= k < j ==> Harmless(verify, history[k], calls[k], events[k])
    ensures Grown(history[i].record, history[j].record) && Found(verify, history[j].record, history[j].files)
    decreases j - i
  {
    if i < j {
      NothingIsLost(verify, history, events, calls, i, j - 1);
      assert Harmless(verify, history[j - 1], calls[j - 1], events[j - 1]);
      assert Step(verify, history[j - 1], calls[j - 1], events[j - 1], history[j - 1 + 1]);
    }
  }

  /**
   Any calls on a repository and its successors on the same disk, whichever of them fail: from each record to every
   later one the staged version stays or strictly grows, as long as no call in between cleared the record or lost it.
   Only verifying, completing, reconciling and discarding clear it; only a failed stage or a restart can lose it.
   */
  method Histories(disk: Disk, verify: Verifier, packagePath: string, calls: seq<Call>)
    returns (history: seq<Situation>, events: seq<Event>, last: Repository?)
    requires disk.Valid()
    modifies disk
    ensures last == null <==> history == []
    ensures last == null || |events| < |calls| ==> !disk.Smooth(old(disk.calls), disk.calls)
    ensures disk.readFaults == old(disk.readFaults) ==> forall k :: 0 <= k < |events| ==> !events[k].misread
    ensures last != null ==> Steps(verify, history, events, calls) && last.disk == disk && last.verify == verify
    ensures last != null ==> Found(verify, history[0].record, history[0].files)
    ensures last != null ==> history[|events|].record == last.staged
    ensures last != null ==> if |events| < |calls| then calls[|events|].ReopenCall? else history[|events|].files == disk.now
    ensures forall i, j :: 0 <= i <= j < |history| && (forall k :: i <= k < j ==> events[k].fate == Kept) ==>
              Grown(history[i].record, history[j].record)
    ensures forall i, j :: 0 <= i <= j < |history| && Found(verify, history[i].record, history[i].files) &&
                           (forall k :: i <= k < j ==> !events[k].broke) ==>
              Found(verify, history[j].record, history[j].files)
  {
    var successor := Repository.Open(disk, verify, packagePath);
    history, events, last := [], [], null;
    if successor.Refused? {
      return;
    }
    var repository := successor.value;
    history := [Situation(repository.staged, disk.now)];
    for n := 0 to |calls|
      invariant fresh(repository) && repository.disk == disk && repository.verify == verify && disk.Valid()
      invariant repository.Valid() && repository.Parsed() && repository.NotBehind()
      invariant |history| == n + 1 && |events| == n && Steps(verify, history, events, calls)
      invariant history[n] == Situation(repository.staged, disk.now)
      invariant Found(verify, history[0].record, history[0].files)
      invariant old(disk.calls) <= disk.calls && old(disk.readFaults) <= disk.readFaults
      invariant disk.readFaults == old(disk.readFaults) ==> forall k :: 0 <= k < |events| ==> !events[k].misread
    {
      var misreads := disk.readFaults;
      var next, fate, broke := Perform(repository, calls[n]);
      if next == null {
        break;
      }
      repository := next;
      history := history + [Situation(repository.staged, disk.now)];
      events := events + [Event(fate, broke, disk.readFaults > misreads)];
    }
    last := repository;
    forall i, j | 0 <= i <= j < |history| && (forall k :: i <= k < j ==> events[k].fate == Kept)
      ensures Grown(history[i].record, history[j].record)
    {
      VersionsGrow(verify, history, events, calls, i, j);
    }
    forall i, j | 0 <= i <= j < |history| && Found(verify, history[i].record, history[i].files) &&
                  (forall k :: i <= k < j ==> !events[k].broke)
      ensures Found(verify, history[j].record, history[j].files)
    {
      StaysFound(verify, history, events, calls, i, j);
    }
  }

  /** Opens a repository in an empty directory and stages an update; the fifteen calls of this succeed. */
  method StagedOnce(
    fails: nat -> bool, verify: Verifier, packagePath: string, candidate: Candidate, package: Content)
    returns (repository: Repository)
    requires (forall n :: 0 <= n < 15 ==> !fails(n)) && verify(package, candidate.signature)
    ensures fresh(repository) && fresh(repository.disk) && repository.Valid() && repository.Faithful()
    ensures repository.verify == verify && repository.packagePath == packagePath
    ensures repository.staged == Some(Describe(candidate))
    ensures repository.disk.fails == fails && repository.disk.calls == 15
  {
    hide Promotion, AllWithin, NoOlder, OldNewOrNothing, Advances;
    var disk := new Disk(fails, _ => Raw([]));
    var opening := Repository.Open(disk, verify, packagePath);
    repository := opening.value;
    var _, _, _, _, _ := repository.Stage(candidate, package);
  }

  /**
   A loss by a single failing call: the second stage stops at the directory sync between its renames, which leaves the
   new package beside the old metadata, and the old signature does not fit.
   */
  method LossHappens(
    verify: Verifier, packagePath: string, earlier: Candidate, package: Content, later: Candidate, newer: Content)
    returns (repository: Repository, staged: Option<Metadata>, r: Outcome<VersionText>)
    requires verify(package, earlier.signature) && earlier.version < later.version
    requires verify(newer, later.signature) && !verify(newer, earlier.signature)
    ensures repository.Valid() && repository.verify == verify
    ensures forall n :: repository.disk.fails(n) ==> n == 20
    ensures staged == Some(Describe(earlier)) && r == Refused(StorageFailed)
    ensures repository.staged == None && Recovered(verify, repository.disk.now) == None
  {
    hide Promotion, AllWithin, NoOlder, OldNewOrNothing, Advances;
    repository := StagedOnce(n => n == 20, verify, packagePath, earlier, package);
    staged := repository.staged;
    var second, _, _, _, _ := repository.Stage(later, newer);
    r := second;
  }

  /**
   A record that is no longer on the disk: completing an installation fails at its second removal. The installation can
   be prepared and handed out again, but the next process finds nothing.
   */
  method HalfClearHappens(verify: Verifier, packagePath: string, candidate: Candidate, package: Content)
    returns (repository: Repository, completed: Outcome<()>, again: Outcome<Handle>)
    requires verify(package, candidate.signature)
    ensures repository.Valid() && repository.verify == verify
    ensures forall n :: repository.disk.fails(n) ==> n == 16
    ensures completed == Refused(StorageFailed) && again.Done? && again.value.version == Semver(candidate.version)
    ensures repository.staged == Some(Describe(candidate)) && Recovered(verify, repository.disk.now) == None
  {
    hide Shrunk, AllShrunk, NoOlder;
    repository := StagedOnce(n => n == 16, verify, packagePath, candidate, package);
    var handle := repository.VerifyForInstall();
    completed := repository.CompleteInstall(handle.value);
    again := repository.VerifyForInstall();
  }
}
