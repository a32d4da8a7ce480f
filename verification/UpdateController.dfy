/** The update state machine (src-tauri/src/desktop_capabilities/app_update/mod.rs:170-498). */
module UpdateController {
  import opened Bytes

  /**
   A version text. Texts that parse are named by the place of their version in the total order of versions; parsing and
   printing are inverse on them.
   */
  datatype VersionText = Malformed(raw: string) | Semver(order: real)

  datatype Release = Release(version: VersionText, notes: string)

  datatype Operation = Check | Download

  datatype Progress = UnknownTotal(downloaded: nat) | KnownTotal(downloaded: nat, total: nat)

  datatype UpdateState =
    | Idle
    | Checking
    | UpToDate
    | Available(version: VersionText, notes: string)
    | Downloading(version: VersionText, notes: string, progress: Progress)
    | Staged(version: VersionText, notes: string)
    | Failed(operation: Operation, retryable: bool, message: string)

  datatype Snapshot = Snapshot(sequence: nat, state: UpdateState, automaticDownload: bool, nextCheckAt: Option<nat>)

  datatype Effect =
    | CheckStable
    | ScheduleCheck(after: nat)
    | StartDownload(release: Release)
    | ScheduleRetry(operation: Operation, after: nat)

  datatype Input =
    | RecoverStaged(version: VersionText)
    | BecomeReady
    | PeriodicCheckDue
    | ManualCheck
    | CheckSucceeded(found: Option<Release>)
    | CheckFailed(message: string, retryable: bool)
    | StagingDiscardFailed
    | SetAutomaticDownload(enabled: bool)
    | DownloadStarted
    | DownloadAdvanced(progress: Progress)
    | DownloadSucceeded
    | DownloadFailed(message: string, retryable: bool)
    | UserRetry
    | RetryDue

  datatype Error = InvalidReleaseVersion(version: VersionText) | PreferenceError

  datatype Result = Accepted(effects: seq<Effect>) | Rejected(error: Error)

  datatype PendingRetry = PendingRetry(operation: Operation, automaticRetries: nat)

  /** `running` is the version of the running application. */
  datatype Controller = Controller(
    running: real,
    release: Option<Release>,
    staged: Option<real>,
    ready: bool,
    active: bool,
    snapshot: Snapshot,
    pending: Option<PendingRetry>)

  /** What the environment contributes to one input: the clock, and whether saving the preference succeeds. */
  datatype Moment = Moment(now: nat, saveOk: bool)

  // Durations in seconds.
  const CHECK_INTERVAL: nat := 6 * 60 * 60
  const MAX_AUTOMATIC_RETRIES: nat := 3

  function RetryDelay(n: nat): nat {
    if n <= 1 then 1 else if n == 2 then 2 else 4
  }

  function Initial(running: real, preference: Option<bool>): Controller {
    Controller(running, None, None, false, false,
               Snapshot(0, Idle, if preference.Some? then preference.value else true, None), None)
  }

  // ---------- One input ----------

  function Show(c: Controller, state: UpdateState): Controller {
    c.(snapshot := c.snapshot.(state := state))
  }

  function Renew(c: Controller, now: nat): Controller {
    c.(snapshot := c.snapshot.(nextCheckAt := Some(now + CHECK_INTERVAL)))
  }

  function StartCheck(c: Controller, scheduleNext: bool, now: nat): (Controller, seq<Effect>) {
    var started := Show(c, Checking).(active := true, pending := None);
    if scheduleNext then (Renew(started, now), [CheckStable, ScheduleCheck(CHECK_INTERVAL)])
    else (started, [CheckStable])
  }

  function AcceptCheckResult(c: Controller, found: Option<Release>): (Controller, Result) {
    var done := c.(pending := None, active := false);
    if found.None? then (Show(done, UpToDate).(release := None), Accepted([]))
    else if found.value.version.Malformed? then (done, Rejected(InvalidReleaseVersion(found.value.version))) else
    var candidate := found.value.version.order;
    if candidate <= c.running then (Show(done, UpToDate).(release := None), Accepted([]))
    else if c.staged.Some? && candidate <= c.staged.value then
      (Show(done, Staged(Semver(c.staged.value), "")), Accepted([])) else
    var available := Show(done, Available(found.value.version, found.value.notes)).(staged := None, release := found);
    if c.snapshot.automaticDownload then (available.(active := true), Accepted([StartDownload(found.value)]))
    else (available, Accepted([]))
  }

  function ShowProgress(c: Controller, progress: Progress): Controller {
    if c.release.Some? then Show(c, Downloading(c.release.value.version, c.release.value.notes, progress)) else c
  }

  function FinishDownload(c: Controller): Controller {
    var done := c.(active := false, pending := None);
    if c.release.Some? then
      var v := c.release.value.version;
      Show(done, Staged(v, c.release.value.notes)).(staged := if v.Semver? then Some(v.order) else None)
    else done
  }

  function Retries(c: Controller, operation: Operation): nat {
    if c.pending.Some? && c.pending.value.operation == operation then c.pending.value.automaticRetries else 0
  }

  function AcceptFailure(c: Controller, operation: Operation, message: string, retryable: bool)
    : (Controller, seq<Effect>)
  {
    var prior := Retries(c, operation);
    var again := retryable && prior < MAX_AUTOMATIC_RETRIES;
    var retries := if again then prior + 1 else prior;
    var state := if c.staged.Some? then Staged(Semver(c.staged.value), "") else Failed(operation, retryable, message);
    (Show(c, state).(active := false, pending := Some(PendingRetry(operation, retries))),
     if again then [ScheduleRetry(operation, RetryDelay(retries))] else [])
  }

  function Replay(c: Controller): (Controller, seq<Effect>) {
    if c.release.Some? then (c.(active := true), [StartDownload(c.release.value)]) else (c, [])
  }

  function RetryPending(c: Controller): (Controller, seq<Effect>) {
    if c.pending.None? then (c, [])
    else if c.pending.value.operation == Check then (Show(c, Checking).(active := true), [CheckStable])
    else Replay(c)
  }

  function RetryByUser(c: Controller, now: nat): (Controller, seq<Effect>) {
    var state := c.snapshot.state;
    if !state.Failed? || !state.retryable then (c, [])
    else if state.operation == Check then StartCheck(c.(pending := None), false, now)
    else Replay(c.(pending := None))
  }

  function Respond(r: (Controller, seq<Effect>)): (Controller, Result) {
    (r.0, Accepted(r.1))
  }

  /** The transition before the sequence number is advanced. */
  function Transition(c: Controller, input: Input, m: Moment): (Controller, Result) {
    match input
    case RecoverStaged(version) =>
      if version.Malformed? then (c, Rejected(InvalidReleaseVersion(version)))
      else if version.order > c.running then
        (Show(c, Staged(version, "")).(staged := Some(version.order), release := Some(Release(version, ""))),
         Accepted([]))
      else (c, Accepted([]))
    case BecomeReady =>
      if c.ready || c.active then (c, Accepted([])) else Respond(StartCheck(c.(ready := true), true, m.now))
    case PeriodicCheckDue =>
      if !c.ready then (c, Accepted([]))
      else if c.active then (Renew(c, m.now), Accepted([ScheduleCheck(CHECK_INTERVAL)]))
      else Respond(StartCheck(c, true, m.now))
    case ManualCheck => if c.active then (c, Accepted([])) else Respond(StartCheck(c, false, m.now))
    case CheckSucceeded(found) => AcceptCheckResult(c, found)
    case CheckFailed(message, retryable) => Respond(AcceptFailure(c, Check, message, retryable))
    case StagingDiscardFailed =>
      (Show(c, Failed(Check, false, "update storage failed"))
         .(active := false, staged := None, release := None, pending := None), Accepted([]))
    case SetAutomaticDownload(enabled) =>
      if !m.saveOk then (c, Rejected(PreferenceError)) else
      var saved := c.(snapshot := c.snapshot.(automaticDownload := enabled));
      if enabled && c.snapshot.state.Available? then Respond(Replay(saved)) else (saved, Accepted([]))
    case DownloadStarted => (ShowProgress(c, UnknownTotal(0)), Accepted([]))
    case DownloadAdvanced(progress) => (ShowProgress(c, progress), Accepted([]))
    case DownloadSucceeded => (FinishDownload(c), Accepted([]))
    case DownloadFailed(message, retryable) => Respond(AcceptFailure(c, Download, message, retryable))
    case UserRetry => Respond(RetryByUser(c, m.now))
    case RetryDue => Respond(RetryPending(c))
  }

  function Handled(c: Controller, input: Input, m: Moment): (Controller, Result) {
    var (after, result) := Transition(c, input, m);
    (if result.Accepted? then after.(snapshot := after.snapshot.(sequence := after.snapshot.sequence + 1)) else after,
     result)
  }

  // ---------- The object ----------

  class UpdateController {
    const running: real
    var release: Option<Release>
    var staged: Option<real>
    var ready: bool
    var active: bool
    var snapshot: Snapshot
    var pending: Option<PendingRetry>

    function Value(): Controller
      reads this
    {
      Controller(running, release, staged, ready, active, snapshot, pending)
    }

    constructor (running: real, preference: Option<bool>)
      ensures Value() == Initial(running, preference)
    {
      this.running := running;
      release, staged, ready, active, pending := None, None, false, false, None;
      snapshot := Snapshot(0, Idle, if preference.Some? then preference.value else true, None);
    }

    method BeginCheck(scheduleNext: bool, now: nat) returns (effects: seq<Effect>)
      modifies this
      ensures (Value(), effects) == StartCheck(old(Value()), scheduleNext, now)
    {
      active := true;
      snapshot := snapshot.(state := Checking);
      pending := None;
      effects := [CheckStable];
      if scheduleNext {
        snapshot := snapshot.(nextCheckAt := Some(now + CHECK_INTERVAL));
        effects := effects + [ScheduleCheck(CHECK_INTERVAL)];
        assert effects == [CheckStable, ScheduleCheck(CHECK_INTERVAL)];
      }
    }

    method TakeCheckResult(found: Option<Release>) returns (r: Result)
      modifies this
      ensures (Value(), r) == AcceptCheckResult(old(Value()), found)
    {
      pending := None;
      active := false;
      if found.None? {
        release := None;
        snapshot := snapshot.(state := UpToDate);
        return Accepted([]);
      }
      var candidate := found.value;
      if candidate.version.Malformed? {
        return Rejected(InvalidReleaseVersion(candidate.version));
      }
      if candidate.version.order <= running {
        release := None;
        snapshot := snapshot.(state := UpToDate);
        return Accepted([]);
      }
      if staged.Some? && candidate.version.order <= staged.value {
        snapshot := snapshot.(state := Staged(Semver(staged.value), ""));
        return Accepted([]);
      }
      if staged.Some? {
        staged := None;
      }
      snapshot := snapshot.(state := Available(candidate.version, candidate.notes));
      release := Some(candidate);
      if snapshot.automaticDownload {
        active := true;
        return Accepted([StartDownload(candidate)]);
      }
      return Accepted([]);
    }

    method TakeFailure(operation: Operation, message: string, retryable: bool) returns (effects: seq<Effect>)
      modifies this
      ensures (Value(), effects) == AcceptFailure(old(Value()), operation, message, retryable)
    {
      active := false;
      effects := [];
      var prior := if pending.Some? && pending.value.operation == operation
                   then pending.value.automaticRetries else 0;
      var retries := prior;
      if retryable && prior < MAX_AUTOMATIC_RETRIES {
        retries := prior + 1;
        effects := [ScheduleRetry(operation, RetryDelay(retries))];
      }
      pending := Some(PendingRetry(operation, retries));
      if staged.Some? {
        snapshot := snapshot.(state := Staged(Semver(staged.value), ""));
      } else {
        snapshot := snapshot.(state := Failed(operation, retryable, message));
      }
    }

    method CompleteDownload()
      modifies this
      ensures Value() == FinishDownload(old(Value()))
    {
      active := false;
      pending := None;
      if release.Some? {
        var v := release.value.version;
        staged := if v.Semver? then Some(v.order) else None;
        snapshot := snapshot.(state := Staged(v, release.value.notes));
      }
    }

    method AdvanceDownload(progress: Progress)
      modifies this
      ensures Value() == ShowProgress(old(Value()), progress)
    {
      if release.Some? {
        snapshot := snapshot.(state := Downloading(release.value.version, release.value.notes, progress));
      }
    }

    method Restart() returns (effects: seq<Effect>)
      modifies this
      ensures (Value(), effects) == Replay(old(Value()))
    {
      effects := [];
      if release.Some? {
        active := true;
        effects := [StartDownload(release.value)];
      }
    }

    method RunPendingRetry() returns (effects: seq<Effect>)
      modifies this
      ensures (Value(), effects) == RetryPending(old(Value()))
    {
      effects := [];
      if pending.None? {
        return;
      }
      match pending.value.operation
      case Check =>
        active := true;
        snapshot := snapshot.(state := Checking);
        effects := [CheckStable];
      case Download =>
        effects := Restart();
    }

    method RunUserRetry(now: nat) returns (effects: seq<Effect>)
      modifies this
      ensures (Value(), effects) == RetryByUser(old(Value()), now)
    {
      effects := [];
      var state := snapshot.state;
      if !state.Failed? || !state.retryable {
        return;
      }
      pending := None;
      match state.operation
      case Check => effects := BeginCheck(false, now);
      case Download => effects := Restart();
    }

    method SaveAutomaticDownload(enabled: bool, saveOk: bool) returns (r: Result)
      modifies this
      ensures forall now :: (Value(), r) == Transition(old(Value()), SetAutomaticDownload(enabled), Moment(now, saveOk))
    {
      if !saveOk {
        return Rejected(PreferenceError);
      }
      var effects := [];
      snapshot := snapshot.(automaticDownload := enabled);
      if enabled && snapshot.state.Available? {
        effects := Restart();
      }
      return Accepted(effects);
    }

    method Recover(version: VersionText) returns (r: Result)
      modifies this
      ensures forall m :: (Value(), r) == Transition(old(Value()), RecoverStaged(version), m)
    {
      if version.Malformed? {
        return Rejected(InvalidReleaseVersion(version));
      }
      if version.order > running {
        staged := Some(version.order);
        release := Some(Release(version, ""));
        snapshot := snapshot.(state := Staged(version, ""));
      }
      return Accepted([]);
    }

    method Abandon()
      modifies this
      ensures forall m :: (Value(), Accepted([])) == Transition(old(Value()), StagingDiscardFailed, m)
    {
      active, staged, release, pending := false, None, None, None;
      snapshot := snapshot.(state := Failed(Check, false, "update storage failed"));
    }

    method Handle(input: Input, m: Moment) returns (r: Result)
      modifies this
      ensures (Value(), r) == Handled(old(Value()), input, m)
    {
      hide AcceptCheckResult, AcceptFailure, StartCheck, FinishDownload, ShowProgress, RetryPending, RetryByUser;
      var effects: seq<Effect> := [];
      match input {
        case RecoverStaged(version) =>
          r := Recover(version);
          if r.Rejected? {
            return;
          }
        case BecomeReady =>
          if ready || active {
            snapshot := snapshot.(sequence := snapshot.sequence + 1);
            return Accepted(effects);
          }
          ready := true;
          effects := BeginCheck(true, m.now);
        case PeriodicCheckDue =>
          if ready {
            if active {
              snapshot := snapshot.(nextCheckAt := Some(m.now + CHECK_INTERVAL));
              effects := [ScheduleCheck(CHECK_INTERVAL)];
            } else {
              effects := BeginCheck(true, m.now);
            }
          }
        case ManualCheck =>
          if !active {
            effects := BeginCheck(false, m.now);
          }
        case CheckSucceeded(found) =>
          r := TakeCheckResult(found);
          if r.Rejected? {
            return;
          }
          effects := r.effects;
        case CheckFailed(message, retryable) => effects := TakeFailure(Check, message, retryable);
        case StagingDiscardFailed => Abandon();
        case SetAutomaticDownload(enabled) =>
          r := SaveAutomaticDownload(enabled, m.saveOk);
          if r.Rejected? {
            return;
          }
          effects := r.effects;
        case DownloadStarted => AdvanceDownload(UnknownTotal(0));
        case DownloadAdvanced(progress) => AdvanceDownload(progress);
        case DownloadSucceeded => CompleteDownload();
        case DownloadFailed(message, retryable) => effects := TakeFailure(Download, message, retryable);
        case UserRetry => effects := RunUserRetry(m.now);
        case RetryDue => effects := RunPendingRetry();
      }
      snapshot := snapshot.(sequence := snapshot.sequence + 1);
      return Accepted(effects);
    }
  }
}
