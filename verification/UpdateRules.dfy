/**
 The update state machine read field by field: which inputs are refused, which effects they have, and who writes what
 (src-tauri/src/desktop_capabilities/app_update/mod.rs:209-487).
 */
module UpdateRules {
  import opened Bytes
  import opened UpdateController

  // ---------- Refusals ----------

  /** The three errors: a version that does not parse, from the disk or the server, and a preference that is not saved. */
  function ErrorOf(input: Input, m: Moment): Option<Error> {
    match input
    case RecoverStaged(Malformed(raw)) => Some(InvalidReleaseVersion(Malformed(raw)))
    case CheckSucceeded(Some(Release(Malformed(raw), _))) => Some(InvalidReleaseVersion(Malformed(raw)))
    case SetAutomaticDownload(_) => if m.saveOk then None else Some(PreferenceError)
    case _ => None
  }

  // ---------- Effects ----------

  predicate Shows(c: Controller, operation: Operation) {
    c.snapshot.state.Failed? && c.snapshot.state.operation == operation && c.snapshot.state.retryable
  }

  predicate Waits(c: Controller, operation: Operation) {
    c.pending.Some? && c.pending.value.operation == operation
  }

  /** A check is started when nothing is going on, by the first readiness, a due period or the user; or as a retry. */
  predicate StartsCheck(c: Controller, input: Input) {
    match input
    case BecomeReady => !c.ready && !c.active
    case PeriodicCheckDue => c.ready && !c.active
    case ManualCheck => !c.active
    case UserRetry => Shows(c, Check)
    case RetryDue => Waits(c, Check)
    case _ => false
  }

  /** The next periodic check is scheduled with the first one, and whenever one is due, even if it is skipped. */
  predicate SchedulesCheck(c: Controller, input: Input) {
    || (input == BecomeReady && !c.ready && !c.active)
    || (input == PeriodicCheckDue && c.ready)
  }

  /** Newer than what is running and what is staged. */
  predicate Offers(c: Controller, version: VersionText) {
    version.Semver? && version.order > c.running && (c.staged.Some? ==> version.order > c.staged.value)
  }

  /** The release whose download is started. */
  function Download(c: Controller, input: Input, m: Moment): Option<Release> {
    match input
    case CheckSucceeded(Some(found)) =>
      if Offers(c, found.version) && c.snapshot.automaticDownload then Some(found) else None
    case SetAutomaticDownload(enabled) =>
      if enabled && m.saveOk && c.snapshot.state.Available? then c.release else None
    case UserRetry => if Shows(c, Operation.Download) then c.release else None
    case RetryDue => if Waits(c, Operation.Download) then c.release else None
    case _ => None
  }

  /** The operation that failed, and whether trying again may help. */
  function Failure(input: Input): Option<(Operation, string, bool)> {
    match input
    case CheckFailed(message, retryable) => Some((Check, message, retryable))
    case DownloadFailed(message, retryable) => Some((Operation.Download, message, retryable))
    case _ => None
  }

  /** Retries of the same operation made so far. */
  function Prior(c: Controller, operation: Operation): nat {
    if Waits(c, operation) then c.pending.value.automaticRetries else 0
  }

  predicate TriesAgain(c: Controller, input: Input) {
    var failure := Failure(input);
    failure.Some? && failure.value.2 && Prior(c, failure.value.0) < 3
  }

  /** The three automatic retries come after one, two and four seconds. */
  function Delay(prior: nat): nat {
    if prior == 0 then 1 else if prior == 1 then 2 else 4
  }

  function EffectsOf(c: Controller, input: Input, m: Moment): seq<Effect> {
    (if StartsCheck(c, input) then [CheckStable] else []) +
    (if SchedulesCheck(c, input) then [ScheduleCheck(21600)] else []) +
    (if Download(c, input, m).Some? then [StartDownload(Download(c, input, m).value)] else []) +
    (if TriesAgain(c, input) then
       [ScheduleRetry(Failure(input).value.0, Delay(Prior(c, Failure(input).value.0)))] else [])
  }

  // ---------- Who writes what ----------

  predicate Ends(input: Input) {
    || input.CheckSucceeded? || input.CheckFailed? || input.StagingDiscardFailed?
    || input.DownloadSucceeded? || input.DownloadFailed?
  }

  function ActiveAfter(c: Controller, input: Input, m: Moment): bool {
    StartsCheck(c, input) || Download(c, input, m).Some? || (c.active && !Ends(input))
  }

  function PendingAfter(c: Controller, input: Input): Option<PendingRetry> {
    var failure := Failure(input);
    if failure.Some? then
      var prior := Prior(c, failure.value.0);
      Some(PendingRetry(failure.value.0, if TriesAgain(c, input) then prior + 1 else prior))
    else if input.CheckSucceeded? || input.StagingDiscardFailed? || input.DownloadSucceeded? then None
    else if StartsCheck(c, input) && input != RetryDue then None
    else if input == UserRetry && Shows(c, Operation.Download) then None
    else c.pending
  }

  /** A version found staged at the start counts only when it is newer than the running one. */
  predicate Recovers(c: Controller, input: Input) {
    input.RecoverStaged? && input.version.Semver? && input.version.order > c.running
  }

  function StagedAfter(c: Controller, input: Input): Option<real> {
    if Recovers(c, input) then Some(input.version.order)
    else if input.StagingDiscardFailed? then None
    else if input.CheckSucceeded? && input.found.Some? && Offers(c, input.found.value.version) then None
    else if input.DownloadSucceeded? && c.release.Some? then
      if c.release.value.version.Semver? then Some(c.release.value.version.order) else None
    else c.staged
  }

  function ReleaseAfter(c: Controller, input: Input): Option<Release> {
    match input
    case RecoverStaged(version) => if Recovers(c, input) then Some(Release(version, "")) else c.release
    case StagingDiscardFailed => None
    case CheckSucceeded(None) => None
    case CheckSucceeded(Some(found)) =>
      if Offers(c, found.version) then Some(found)
      else if found.version.Semver? && found.version.order <= c.running then None
      else c.release
    case _ => c.release
  }

  function StagedState(c: Controller): UpdateState
    requires c.staged.Some?
  {
    Staged(Semver(c.staged.value), "")
  }

  /** What the user sees; an update that stays staged goes before a failure. */
  function StateAfter(c: Controller, input: Input): UpdateState {
    if StartsCheck(c, input) then Checking
    else if Failure(input).Some? then
      if c.staged.Some? then StagedState(c)
      else Failed(Failure(input).value.0, Failure(input).value.2, Failure(input).value.1)
    else
      match input
      case RecoverStaged(version) => if Recovers(c, input) then Staged(version, "") else c.snapshot.state
      case CheckSucceeded(None) => UpToDate
      case CheckSucceeded(Some(found)) =>
        if found.version.Malformed? then c.snapshot.state
        else if Offers(c, found.version) then Available(found.version, found.notes)
        else if found.version.order <= c.running || c.staged.None? then UpToDate
        else StagedState(c)
      case StagingDiscardFailed => Failed(Check, false, "update storage failed")
      case DownloadStarted =>
        if c.release.Some? then Downloading(c.release.value.version, c.release.value.notes, UnknownTotal(0))
        else c.snapshot.state
      case DownloadAdvanced(progress) =>
        if c.release.Some? then Downloading(c.release.value.version, c.release.value.notes, progress)
        else c.snapshot.state
      case DownloadSucceeded =>
        if c.release.Some? then Staged(c.release.value.version, c.release.value.notes) else c.snapshot.state
      case _ => c.snapshot.state
  }

  function SnapshotAfter(c: Controller, input: Input, m: Moment): Snapshot {
    Snapshot(
      if ErrorOf(input, m).Some? then c.snapshot.sequence else c.snapshot.sequence + 1,
      StateAfter(c, input),
      if input.SetAutomaticDownload? && m.saveOk then input.enabled else c.snapshot.automaticDownload,
      if SchedulesCheck(c, input) then Some(m.now + 21600) else c.snapshot.nextCheckAt)
  }

  function ControllerAfter(c: Controller, input: Input, m: Moment): Controller {
    Controller(
      c.running, ReleaseAfter(c, input), StagedAfter(c, input),
      c.ready || (input == BecomeReady && !c.active),
      ActiveAfter(c, input, m), SnapshotAfter(c, input, m), PendingAfter(c, input))
  }

  /** The new value and the answer. */
  predicate Follows(c: Controller, input: Input, m: Moment) {
    && Handled(c, input, m).0 == ControllerAfter(c, input, m)
    && Handled(c, input, m).1 ==
       if ErrorOf(input, m).Some? then Rejected(ErrorOf(input, m).value) else Accepted(EffectsOf(c, input, m))
  }

  lemma CheckResultFollows(c: Controller, found: Option<Release>, m: Moment)
    ensures Follows(c, CheckSucceeded(found), m)
  {
    if found.None? {
    } else if found.value.version.Malformed? {
    } else if found.value.version.order <= c.running {
    } else if c.staged.Some? && found.value.version.order <= c.staged.value {
    } else {
    }
  }

  lemma FailureFollows(c: Controller, input: Input, m: Moment)
    requires input.CheckFailed? || input.DownloadFailed?
    ensures Follows(c, input, m)
  {
    if TriesAgain(c, input) {} else {}
  }

  lemma StartFollows(c: Controller, input: Input, m: Moment)
    requires input.BecomeReady? || input.PeriodicCheckDue? || input.ManualCheck?
    ensures Follows(c, input, m)
  {
    if c.active {} else {}
  }

  lemma RetryFollows(c: Controller, input: Input, m: Moment)
    requires input.UserRetry? || input.RetryDue?
    ensures Follows(c, input, m)
  {
    if input.UserRetry? {
      if Shows(c, Check) {} else if Shows(c, Operation.Download) {} else {}
    } else {
      if Waits(c, Check) {} else if Waits(c, Operation.Download) {} else {}
    }
  }

  lemma SettingFollows(c: Controller, enabled: bool, m: Moment)
    ensures Follows(c, SetAutomaticDownload(enabled), m)
  {
    if m.saveOk {} else {}
  }

  /**
   Each field changes by its own rule and by no other; and every input is refused with its error, or has exactly these
   effects in this order.
   */
  lemma InputFollows(c: Controller, input: Input, m: Moment)
    ensures Handled(c, input, m).0 == ControllerAfter(c, input, m)
    ensures Handled(c, input, m).1 ==
            if ErrorOf(input, m).Some? then Rejected(ErrorOf(input, m).value) else Accepted(EffectsOf(c, input, m))
  {
    if input.CheckSucceeded? {
      CheckResultFollows(c, input.found, m);
    } else if input.CheckFailed? || input.DownloadFailed? {
      FailureFollows(c, input, m);
    } else if input.BecomeReady? || input.PeriodicCheckDue? || input.ManualCheck? {
      StartFollows(c, input, m);
    } else if input.UserRetry? || input.RetryDue? {
      RetryFollows(c, input, m);
    } else if input.SetAutomaticDownload? {
      SettingFollows(c, input.enabled, m);
    } else {
      OtherFollows(c, input, m);
    }
    hide Handled, ControllerAfter, EffectsOf, ErrorOf;
  }

  lemma OtherFollows(c: Controller, input: Input, m: Moment)
    requires input.RecoverStaged? || input.StagingDiscardFailed? || input.DownloadStarted? || input.DownloadAdvanced? ||
             input.DownloadSucceeded?
    ensures Follows(c, input, m)
  {
    hide AcceptCheckResult, AcceptFailure, StartCheck, RetryPending, RetryByUser, RetryDelay, Delay, Prior, Offers;
    match input
    case RecoverStaged(_) =>
    case StagingDiscardFailed =>
    case DownloadStarted =>
    case DownloadAdvanced(_) =>
    case DownloadSucceeded =>
  }
}
