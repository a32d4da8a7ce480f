/**
 The update system read field by field: when a step is possible, what it tells the controller, and who writes what
 (src-tauri/src/desktop_capabilities/app_update/tauri_adapter.rs:636-659, 679-718, 831-1144).
 */
module UpdateSystemRules {
  import opened Bytes
  import opened UpdateController
  import opened UpdateSystem

  // ---------- When a step is possible ----------

  predicate FromOutside(input: Input) {
    match input
    case BecomeReady => true
    case PeriodicCheckDue => true
    case ManualCheck => true
    case SetAutomaticDownload(_) => true
    case UserRetry => true
    case RetryDue => true
    case _ => false
  }

  /** Once an installation has been handed out, the system is not followed any further. */
  predicate Possible(s: System, step: Step) {
    !(s.installer.Some? && s.installer.value.Gone?) &&
    match step
    case Outside(input) => FromOutside(input)
    case Acquire(task) => s.holder.None? && task in s.tasks
    case AnswerCheck(_) => s.holder.Some? && s.holder.value.CheckBegun?
    case Prepare(_) => s.holder.Some? && s.holder.value.CheckFound?
    case DispatchChecked => s.holder.Some? && s.holder.value.CheckPrepared?
    case BeginDownload => s.holder.Some? && s.holder.value.DownloadBegun?
    case Advance(_) => s.holder.Some? && s.holder.value.DownloadRunning?
    case FailDownload(_, _) => s.holder.Some? && s.holder.value.DownloadRunning?
    case Stage(_) => s.holder.Some? && s.holder.value.DownloadRunning? && s.holder.value.version.Semver?
    case DispatchStaged => s.holder.Some? && s.holder.value.StageEnded?
    case LookAtRepository => s.installer.None?
    case LookAtSnapshot => s.installer.Some? && s.installer.value.Looked?
    case Install(_) => s.installer.Some? && s.installer.value.Allowed?
  }

  lemma PossibleExactly(s: System, step: Step, m: Moment)
    ensures Do(s, step, m).Some? <==> Possible(s, step)
  {
    hide Dispatch, Prepared, StageInto;
    match step
    case AnswerCheck(answer) => match answer { case _ => }
    case _ =>
  }

  // ---------- What the controller is told ----------

  /** The input that a step sends to the controller. */
  function Sent(s: System, step: Step): Option<Input>
    requires Possible(s, step)
  {
    match step
    case Outside(input) => Some(input)
    case AnswerCheck(CheckBroken(message, retryable)) => Some(CheckFailed(message, retryable))
    case AnswerCheck(NothingNew) => Some(CheckSucceeded(None))
    case DispatchChecked => Some(s.holder.value.input)
    case BeginDownload => if s.pending == Some(s.holder.value.release.version) then Some(DownloadStarted) else None
    case Advance(progress) => Some(DownloadAdvanced(progress))
    case FailDownload(message, retryable) => Some(DownloadFailed(message, retryable))
    case DispatchStaged =>
      Some(if s.holder.value.ok then DownloadSucceeded
           else DownloadFailed("update signature verification failed", false))
    case _ => None
  }

  /** How often an effect occurs. */
  function Count(effects: seq<Effect>, effect: Effect): nat {
    if effects == [] then 0 else (if effects[0] == effect then 1 else 0) + Count(effects[1..], effect)
  }

  function Cause(task: Task): Effect {
    match task case CheckTask => CheckStable case DownloadTask(release) => StartDownload(release)
  }

  /** Checks and downloads are queued once for each effect that asks for them, and timers are not queued. */
  lemma {:induction false} TasksExactly(effects: seq<Effect>, task: Task)
    ensures TasksOf(effects)[task] == Count(effects, Cause(task))
  {
    if effects != [] {
      TasksExactly(effects[1..], task);
    }
  }

  // ---------- Who writes what ----------

  /** A clear of the older package is under way, or the stage of a new one. */
  function RepositoryAfter(s: System, step: Step): Repository
    requires Possible(s, step)
  {
    if s.repository.Unavailable? then s.repository
    else
      match step
      case Prepare(clear) =>
        var version := s.holder.value.release.version;
        if s.repository.staged.Some? && version.Semver? && s.repository.staged.value < version.order then
          if clear == ClearOk then Opened(None, None)
          else if clear.fileGone then Opened(s.repository.staged, None) else s.repository
        else s.repository
      case Stage(outcome) =>
        var version := s.holder.value.version.order;
        if s.repository.staged.Some? && version <= s.repository.staged.value then s.repository
        else if outcome == Promoted then Opened(Some(version), Some(version))
        else
          var disk := if outcome.file == NoFile then None
                      else if outcome.file == NewFile then Some(version) else s.repository.disk;
          Opened(if outcome.record == NoRecord then None
                 else if outcome.record == RecordOfFile then disk else s.repository.staged, disk)
      case _ => s.repository
  }

  /** Discarding fails without a repository, for a version that does not parse, and when the clear fails. */
  predicate DiscardFails(s: System, step: Step)
    requires Possible(s, step) && step.Prepare?
  {
    var version := s.holder.value.release.version;
    || s.repository.Unavailable?
    || (s.repository.staged.Some? && version.Malformed?)
    || (s.repository.staged.Some? && s.repository.staged.value < version.order && step.clear.ClearFails?)
  }

  function HolderAfter(s: System, step: Step): Option<Holder>
    requires Possible(s, step)
  {
    match step
    case Acquire(CheckTask) => Some(CheckBegun)
    case Acquire(DownloadTask(release)) => Some(DownloadBegun(release))
    case AnswerCheck(Found(release)) => Some(CheckFound(release))
    case AnswerCheck(_) => None
    case Prepare(_) =>
      Some(CheckPrepared(if DiscardFails(s, step) then StagingDiscardFailed
                         else CheckSucceeded(Some(s.holder.value.release))))
    case DispatchChecked => None
    case BeginDownload => if Sent(s, step).None? then None else Some(DownloadRunning(s.holder.value.release.version))
    case FailDownload(_, _) => None
    case Stage(outcome) =>
      var version := s.holder.value.version;
      Some(StageEnded(version,
                      s.repository.Opened? && outcome == Promoted &&
                      (s.repository.staged.Some? ==> s.repository.staged.value < version.order)))
    case DispatchStaged => None
    case _ => s.holder
  }

  function PendingAfter(s: System, step: Step): Option<VersionText> {
    if step.AnswerCheck? && step.answer.Found? then Some(step.answer.release.version) else s.pending
  }

  /** Installing is allowed when the snapshot shows a staged update and the repository had one. */
  function InstallerAfter(s: System, step: Step): Option<Installer>
    requires Possible(s, step)
  {
    match step
    case LookAtRepository => Some(Looked(s.repository.Opened? && s.repository.staged.Some?))
    case LookAtSnapshot =>
      if s.controller.snapshot.state.Staged? && s.installer.value.repositoryHasStaged then Some(Allowed) else None
    case Install(verifies) => Some(Gone(if s.repository.Opened? && verifies then s.repository.staged else None))
    case _ => s.installer
  }

  ghost predicate Follows(s: System, step: Step, m: Moment, t: System)
    requires Possible(s, step)
  {
    var sent := Sent(s, step);
    var before := if step.Acquire? then s.tasks - multiset{step.task} else s.tasks;
    && t.repository == RepositoryAfter(s, step) && t.holder == HolderAfter(s, step)
    && t.pending == PendingAfter(s, step) && t.installer == InstallerAfter(s, step)
    && (if sent.None? then t.controller == s.controller && t.tasks == before && t.published == s.published
        else
          var (after, result) := Handled(s.controller, sent.value, m);
          && t.controller == after
          && t.published == s.published + (if result.Accepted? then [after.snapshot] else [])
          && t.tasks == before + (if result.Accepted? then TasksOf(result.effects) else multiset{}))
  }

  lemma PrepareFollows(s: System, clear: ClearOutcome, m: Moment)
    requires Possible(s, Prepare(clear)) && Do(s, Prepare(clear), m).Some?
    ensures Follows(s, Prepare(clear), m, Do(s, Prepare(clear), m).value)
  {
    hide Handled, TasksOf, StageInto, Dispatch, DownloadDo;
    if clear == ClearOk {} else {}
  }

  lemma CheckFollows(s: System, step: Step, m: Moment)
    requires Possible(s, step) && (step.AnswerCheck? || step.DispatchChecked?) && Do(s, step, m).Some?
    ensures Follows(s, step, m, Do(s, step, m).value)
  {
    hide Handled, TasksOf, Prepared, StageInto, DownloadDo;
    match step
    case AnswerCheck(answer) => match answer { case _ => }
    case DispatchChecked =>
  }

  lemma StageFollows(s: System, outcome: StageOutcome, m: Moment)
    requires Possible(s, Stage(outcome)) && Do(s, Stage(outcome), m).Some?
    ensures Follows(s, Stage(outcome), m, Do(s, Stage(outcome), m).value)
  {
    hide Handled, TasksOf, Prepared, Dispatch;
    if s.repository.Unavailable? {
    } else if s.repository.staged.Some? && s.holder.value.version.order <= s.repository.staged.value {
    } else if outcome.Promoted? {
    } else {
      match outcome.file { case NoFile => case FileBefore => case NewFile => }
    }
  }

  lemma BeginDownloadFollows(s: System, m: Moment)
    requires Possible(s, BeginDownload) && Do(s, BeginDownload, m).Some?
    ensures Follows(s, BeginDownload, m, Do(s, BeginDownload, m).value)
  {
    hide Handled, TasksOf, Prepared, StageInto, CheckDo;
    if s.pending == Some(s.holder.value.release.version) {} else {}
  }

  lemma AdvanceFollows(s: System, progress: Progress, m: Moment)
    requires Possible(s, Advance(progress)) && Do(s, Advance(progress), m).Some?
    ensures Follows(s, Advance(progress), m, Do(s, Advance(progress), m).value)
  {
    hide Handled, TasksOf, Prepared, StageInto, CheckDo;
  }

  lemma FailDownloadFollows(s: System, message: string, retryable: bool, m: Moment)
    requires Possible(s, FailDownload(message, retryable)) && Do(s, FailDownload(message, retryable), m).Some?
    ensures Follows(s, FailDownload(message, retryable), m, Do(s, FailDownload(message, retryable), m).value)
  {
    hide Handled, TasksOf, Prepared, StageInto, CheckDo;
  }

  lemma DispatchStagedFollows(s: System, m: Moment)
    requires Possible(s, DispatchStaged) && Do(s, DispatchStaged, m).Some?
    ensures Follows(s, DispatchStaged, m, Do(s, DispatchStaged, m).value)
  {
    hide Handled, TasksOf, Prepared, StageInto, CheckDo;
    if s.holder.value.ok {} else {}
  }

  /** Each field changes by its own rule and by no other. */
  lemma StepFollows(s: System, step: Step, m: Moment)
    requires Possible(s, step)
    ensures Do(s, step, m).Some? && Follows(s, step, m, Do(s, step, m).value)
  {
    hide Do, Follows, Possible;
    PossibleExactly(s, step, m);
    match step
    case Prepare(clear) => PrepareFollows(s, clear, m);
    case AnswerCheck(_) => CheckFollows(s, step, m);
    case DispatchChecked => CheckFollows(s, step, m);
    case BeginDownload => BeginDownloadFollows(s, m);
    case Advance(progress) => AdvanceFollows(s, progress, m);
    case FailDownload(message, retryable) => FailDownloadFollows(s, message, retryable, m);
    case Stage(outcome) => StageFollows(s, outcome, m);
    case DispatchStaged => DispatchStagedFollows(s, m);
    case _ => OtherFollows(s, step, m);
  }

  lemma OtherFollows(s: System, step: Step, m: Moment)
    requires Possible(s, step) && Do(s, step, m).Some?
    requires step.Outside? || step.Acquire? || step.LookAtRepository? || step.LookAtSnapshot? || step.Install?
    ensures Follows(s, step, m, Do(s, step, m).value)
  {
    hide Handled, TasksOf, Prepared, StageInto, CheckDo, DownloadDo;
    match step
    case Outside(_) =>
    case Acquire(task) =>
    case LookAtRepository =>
    case LookAtSnapshot =>
    case Install(_) =>
  }

  /** The system starts with what opening found: a record above the running version is shown as staged. */
  lemma StartFollows(running: real, preference: Option<bool>, repository: Repository, m: Moment)
    ensures var s := Start(running, preference, repository, m);
            var found := repository.Opened? && repository.staged.Some? && repository.staged.value > running;
            && s.repository == repository && s.pending.None? && s.tasks == multiset{}
            && s.holder.None? && s.installer.None? && s.published == [s.controller.snapshot]
            && s.controller.running == running && !s.controller.ready && !s.controller.active
            && s.controller.pending.None?
            && s.controller.staged == (if found then repository.staged else None)
            && s.controller.snapshot.state == (if found then Staged(Semver(repository.staged.value), "") else Idle)
            && s.controller.snapshot.automaticDownload == (preference != Some(false))
  {
  }
}
