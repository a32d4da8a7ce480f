/**
 Controller, staging repository, pending update, queued checks and downloads, and user and timer inputs, as one system
 (src-tauri/src/desktop_capabilities/app_update/tauri_adapter.rs:636-659, 679-718, 736-757, 831-1103, 1137-1144).

 Checks and downloads are serialised by the operation gate; every other input may arrive between any two of their steps.
 */
module UpdateSystem {
  import opened Bytes
  import opened UpdateController
  import UpdateHistory

  datatype Task = CheckTask | DownloadTask(release: Release)

  /** The versions of the cached record and of the metadata file; a file that does not parse counts as none. */
  datatype Repository = Unavailable | Opened(staged: Option<real>, disk: Option<real>)

  /** Where the holder of the operation gate is. */
  datatype Holder =
    | CheckBegun
    | CheckFound(release: Release)                 // the pending update is set
    | CheckPrepared(input: Input)                  // the older package is discarded, nothing dispatched yet
    | DownloadBegun(release: Release)
    | DownloadRunning(version: VersionText)        // DownloadStarted is dispatched
    | StageEnded(version: VersionText, ok: bool)   // the repository has answered, nothing dispatched yet

  /**
   Where a caller of `has_staged` and `install_staged` is: it reads the repository, then the snapshot, then takes the
   repository again and verifies. `Gone`: what verifying handed out, if anything; the system is followed up to there.
   */
  datatype Installer = Looked(repositoryHasStaged: bool) | Allowed | Gone(handed: Option<real>)

  /** `published`: the snapshot that can be read at start-up, and every one published since. */
  datatype System = System(
    controller: Controller,
    repository: Repository,
    pending: Option<VersionText>,
    tasks: multiset<Task>,
    holder: Option<Holder>,
    installer: Option<Installer>,
    published: seq<Snapshot>)

  datatype CheckAnswer = CheckBroken(message: string, retryable: bool) | NothingNew | Found(release: Release)

  /** How a clear ends; a failed one keeps the record and may have removed the metadata file. */
  datatype ClearOutcome = ClearOk | ClearFails(fileGone: bool)

  /** What a failed stage leaves under the metadata name, and in the cached record. */
  datatype FileLeft = NoFile | FileBefore | NewFile
  datatype RecordLeft = RecordBefore | NoRecord | RecordOfFile

  /** How a `stage` that is not refused as too old ends. */
  datatype StageOutcome = Promoted | NotPromoted(file: FileLeft, record: RecordLeft)

  datatype Step =
    | Outside(input: Input)
    | Acquire(task: Task)
    | AnswerCheck(answer: CheckAnswer)
    | Prepare(clear: ClearOutcome)
    | DispatchChecked
    | BeginDownload
    | Advance(progress: Progress)
    | FailDownload(message: string, retryable: bool)
    | Stage(outcome: StageOutcome)
    | DispatchStaged
    | LookAtRepository
    | LookAtSnapshot
    | Install(verifies: bool)

  /** What users and timers send. */
  predicate IsOutside(input: Input) {
    input.BecomeReady? || input.PeriodicCheckDue? || input.ManualCheck? || input.SetAutomaticDownload? ||
    input.UserRetry? || input.RetryDue?
  }

  function TasksOf(effects: seq<Effect>): multiset<Task> {
    if effects == [] then multiset{}
    else
      (match effects[0]
       case CheckStable => multiset{CheckTask}
       case StartDownload(release) => multiset{DownloadTask(release)}
       case _ => multiset{}) + TasksOf(effects[1..])
  }

  /** `dispatch`: the transition, the publication of its snapshot, and its effects; an error drops all but the state. */
  function Dispatch(s: System, input: Input, m: Moment): System {
    var (after, result) := Handled(s.controller, input, m);
    if result.Accepted? then
      s.(controller := after, published := s.published + [after.snapshot], tasks := s.tasks + TasksOf(result.effects))
    else s.(controller := after)
  }

  function Unhold(s: System): System {
    s.(holder := None)
  }

  function Hold(s: System, holder: Holder): System {
    s.(holder := Some(holder))
  }

  /** `discard_if_older_than` and `prepare_checked_release`. */
  function Prepared(repository: Repository, release: Release, clear: ClearOutcome): (Repository, Input) {
    if repository.Unavailable? then (repository, StagingDiscardFailed)
    else if repository.staged.None? then (repository, CheckSucceeded(Some(release)))
    else if release.version.Malformed? then (repository, StagingDiscardFailed)
    else if release.version.order <= repository.staged.value then (repository, CheckSucceeded(Some(release)))
    else
      match clear
      case ClearOk => (Opened(None, None), CheckSucceeded(Some(release)))
      case ClearFails(fileGone) =>
        (Opened(repository.staged, if fileGone then None else repository.disk), StagingDiscardFailed)
  }

  /** `stage` on the repository, for a version that parses. */
  function StageInto(repository: Repository, version: real, outcome: StageOutcome): (Repository, bool) {
    if repository.Unavailable? then (repository, false)
    else if repository.staged.Some? && version <= repository.staged.value then (repository, false)
    else
      match outcome
      case Promoted => (Opened(Some(version), Some(version)), true)
      case NotPromoted(file, record) =>
        var disk := match file case NoFile => None case FileBefore => repository.disk case NewFile => Some(version);
        var staged := match record case RecordBefore => repository.staged case NoRecord => None case RecordOfFile => disk;
        (Opened(staged, disk), false)
  }

  function CheckDo(s: System, step: Step, m: Moment): Option<System>
    requires s.holder.Some?
  {
    match (s.holder.value, step)
    case (CheckBegun, AnswerCheck(CheckBroken(message, retryable))) =>
      Some(Unhold(Dispatch(s, CheckFailed(message, retryable), m)))
    case (CheckBegun, AnswerCheck(NothingNew)) => Some(Unhold(Dispatch(s, CheckSucceeded(None), m)))
    case (CheckBegun, AnswerCheck(Found(release))) =>
      Some(Hold(s, CheckFound(release)).(pending := Some(release.version)))
    case (CheckFound(release), Prepare(clear)) =>
      var (repository, input) := Prepared(s.repository, release, clear);
      Some(Hold(s, CheckPrepared(input)).(repository := repository))
    case (CheckPrepared(input), DispatchChecked) => Some(Unhold(Dispatch(s, input, m)))
    case _ => None
  }

  function DownloadDo(s: System, step: Step, m: Moment): Option<System>
    requires s.holder.Some?
  {
    match (s.holder.value, step)
    case (DownloadBegun(release), BeginDownload) =>
      if s.pending != Some(release.version) then Some(Unhold(s))
      else Some(Hold(Dispatch(s, DownloadStarted, m), DownloadRunning(release.version)))
    case (DownloadRunning(_), Advance(progress)) => Some(Dispatch(s, DownloadAdvanced(progress), m))
    case (DownloadRunning(_), FailDownload(message, retryable)) =>
      Some(Unhold(Dispatch(s, DownloadFailed(message, retryable), m)))
    case (DownloadRunning(version), Stage(outcome)) =>
      if version.Malformed? then None else
      var (repository, ok) := StageInto(s.repository, version.order, outcome);
      Some(Hold(s, StageEnded(version, ok)).(repository := repository))
    case (StageEnded(_, ok), DispatchStaged) =>
      Some(Unhold(Dispatch(
        s, if ok then DownloadSucceeded else DownloadFailed("update signature verification failed", false), m)))
    case _ => None
  }

  /** `has_staged`, in its two readings, and `install_staged` up to what verification hands out. */
  function InstallDo(s: System, step: Step): Option<System> {
    match (s.installer, step)
    case (None, LookAtRepository) =>
      Some(s.(installer := Some(Looked(s.repository.Opened? && s.repository.staged.Some?))))
    case (Some(Looked(hasStaged)), LookAtSnapshot) =>
      Some(s.(installer := if InstallAllowed(s.controller.snapshot, hasStaged) then Some(Allowed) else None))
    case (Some(Allowed), Install(verifies)) =>
      Some(s.(installer := Some(Gone(if verifies && s.repository.Opened? then s.repository.staged else None))))
    case _ => None
  }

  /** `staged_install_allowed`. */
  predicate InstallAllowed(snapshot: Snapshot, repositoryHasStaged: bool) {
    snapshot.state.Staged? && repositoryHasStaged
  }

  /** One step, or None when it is not enabled. */
  function Do(s: System, step: Step, m: Moment): Option<System> {
    if s.installer.Some? && s.installer.value.Gone? then None else
    match step
    case LookAtRepository => InstallDo(s, step)
    case LookAtSnapshot => InstallDo(s, step)
    case Install(_) => InstallDo(s, step)
    case Outside(input) => if IsOutside(input) then Some(Dispatch(s, input, m)) else None
    case Acquire(task) =>
      if s.holder.Some? || task !in s.tasks then None else
      Some(Hold(s, match task case CheckTask => CheckBegun case DownloadTask(release) => DownloadBegun(release))
             .(tasks := s.tasks - multiset{task}))
    case _ =>
      if s.holder.None? then None
      else if s.holder.value.CheckBegun? || s.holder.value.CheckFound? || s.holder.value.CheckPrepared?
      then CheckDo(s, step, m)
      else DownloadDo(s, step, m)
  }

  function Run(s: System, steps: seq<(Step, Moment)>): Option<System>
    decreases |steps|
  {
    if steps == [] then Some(s) else
    match Do(s, steps[0].0, steps[0].1)
    case None => None
    case Some(next) => Run(next, steps[1..])
  }

  /**
   Start-up: the repository may be unavailable, empty, or hold a package; reconciling with the running version may have
   failed, so the package need not be newer.
   */
  function Start(running: real, preference: Option<bool>, repository: Repository, m: Moment): System {
    var initial := Initial(running, preference);
    var recovered := if repository.Opened? && repository.staged.Some?
                     then Handled(initial, RecoverStaged(Semver(repository.staged.value)), m).0 else initial;
    System(recovered, repository, None, multiset{}, None, None, [recovered.snapshot])
  }

  /** What opening and reconciling can end with: the metadata file is that of the record, or gone. */
  predicate Startable(repository: Repository) {
    repository.Opened? ==> repository.disk == repository.staged || repository.disk.None?
  }

  // ---------- The invariant ----------

  predicate Agree(s: System) {
    s.controller.staged.Some? ==> s.repository.Opened? && s.repository.staged == s.controller.staged
  }

  /** What holds whenever no check or download is between its repository change and its dispatch. */
  predicate Settled(s: System) {
    && Agree(s)
    && (s.controller.staged.Some? && s.pending.Some? ==>
          s.pending.value.Semver? && s.pending.value.order <= s.controller.staged.value)
    && (s.controller.staged.None? && s.controller.release.Some? && s.pending.Some? && s.pending.value.Semver? ==>
          s.controller.release.value.version == s.pending.value)
  }

  predicate PreparedInv(s: System, input: Input) {
    match input
    case StagingDiscardFailed => Agree(s)
    case CheckSucceeded(Some(release)) =>
      s.pending == Some(release.version) &&
      (s.controller.staged.Some? ==>
         release.version.Semver? && s.repository.Opened? &&
         s.repository.staged == if release.version.order > s.controller.staged.value then None else s.controller.staged)
    case _ => false
  }

  predicate HolderInv(s: System) {
    match s.holder
    case Some(CheckFound(release)) => s.pending == Some(release.version) && Agree(s)
    case Some(CheckPrepared(input)) => PreparedInv(s, input)
    case Some(DownloadRunning(version)) => s.pending == Some(version) && Settled(s)
    case Some(StageEnded(version, true)) =>
      && version.Semver? && s.pending == Some(version)
      && s.controller.staged.None? && s.repository == Opened(Some(version.order), Some(version.order))
      && (s.controller.release.Some? ==> s.controller.release.value.version == version)
    case _ => Settled(s)
  }

  predicate NewerThan(running: real, version: Option<real>) {
    version.Some? ==> version.value > running
  }

  /** The repository holds nothing, in memory or on the disk, that is not above the running version. */
  predicate Clean(running: real, repository: Repository) {
    repository.Opened? ==> NewerThan(running, repository.staged) && NewerThan(running, repository.disk)
  }

  /** Every queued or running download is for a version above the running one. */
  ghost predicate NewDownloads(s: System) {
    && (forall release :: DownloadTask(release) in s.tasks ==> UpdateHistory.Newer(s.controller, release.version))
    && (s.holder.Some? && s.holder.value.DownloadBegun? ==>
          UpdateHistory.Newer(s.controller, s.holder.value.release.version))
    && (s.holder.Some? && s.holder.value.DownloadRunning? ==> UpdateHistory.Newer(s.controller, s.holder.value.version))
  }

  /** From the moment the controller names a staged version, and until an allowed installation, the repository is clean. */
  predicate Trusted(s: System) {
    && (s.controller.staged.Some? ==> Clean(s.controller.running, s.repository))
    && (s.holder.Some? && s.holder.value.StageEnded? && s.holder.value.ok ==> Clean(s.controller.running, s.repository))
    && (s.installer == Some(Allowed) ==> Clean(s.controller.running, s.repository))
    && (s.installer.Some? && s.installer.value.Gone? ==> NewerThan(s.controller.running, s.installer.value.handed))
  }

  predicate Core(s: System) {
    UpdateHistory.Inv(s.controller) && HolderInv(s)
  }

  ghost predicate Inv(s: System) {
    Core(s) && NewDownloads(s) && Trusted(s)
  }

  lemma DispatchKeepsController(s: System, input: Input, m: Moment)
    requires UpdateHistory.Inv(s.controller)
    ensures UpdateHistory.Inv(Dispatch(s, input, m).controller)
    ensures var t := Dispatch(s, input, m);
            t.repository == s.repository && t.pending == s.pending && t.holder == s.holder &&
            t.controller == Handled(s.controller, input, m).0 && t.controller.running == s.controller.running
  {
    UpdateHistory.InvKept(s.controller, UpdateHistory.Event(input, m));
  }

  /** Users, timers, progress and failures touch neither the staged version nor the current release. */
  lemma BystandersKeep(c: Controller, input: Input, m: Moment)
    requires IsOutside(input) || input.DownloadStarted? || input.DownloadAdvanced? || input.DownloadFailed? ||
             input.CheckFailed?
    ensures Handled(c, input, m).0.staged == c.staged && Handled(c, input, m).0.release == c.release
  {
    match input
    case BecomeReady =>
    case PeriodicCheckDue =>
    case ManualCheck =>
    case CheckFailed(_, _) =>
    case SetAutomaticDownload(_) =>
    case DownloadStarted =>
    case DownloadAdvanced(_) =>
    case DownloadFailed(_, _) =>
    case UserRetry =>
    case RetryDue =>
    case _ =>
  }

  lemma CheckKeeps(s: System, step: Step, m: Moment)
    requires Core(s) && s.holder.Some? && CheckDo(s, step, m).Some?
    ensures Core(CheckDo(s, step, m).value)
  {
    hide Dispatch;
    match (s.holder.value, step)
    case (CheckBegun, AnswerCheck(CheckBroken(message, retryable))) =>
      DispatchKeepsController(s, CheckFailed(message, retryable), m);
      BystandersKeep(s.controller, CheckFailed(message, retryable), m);
    case (CheckBegun, AnswerCheck(NothingNew)) =>
      DispatchKeepsController(s, CheckSucceeded(None), m);
    case (CheckBegun, AnswerCheck(Found(release))) =>
    case (CheckFound(release), Prepare(clear)) =>
    case (CheckPrepared(input), DispatchChecked) =>
      DispatchKeepsController(s, input, m);
      CheckedIsSettled(s, input, m);
  }

  /** The second window closes: after the dispatch of a check the system is settled again. */
  lemma CheckedIsSettled(s: System, input: Input, m: Moment)
    requires UpdateHistory.Inv(s.controller) && PreparedInv(s, input)
    ensures Settled(s.(controller := Handled(s.controller, input, m).0))
  {
    match input
    case StagingDiscardFailed =>
    case CheckSucceeded(Some(release)) =>
      if release.version.Malformed? {
      } else if release.version.order <= s.controller.running {
      } else if s.controller.staged.Some? && release.version.order <= s.controller.staged.value {
      } else {
      }
  }

  lemma StagedIsSettled(s: System, version: VersionText, ok: bool, m: Moment)
    requires UpdateHistory.Inv(s.controller) && s.holder == Some(StageEnded(version, ok)) && HolderInv(s)
    ensures var input := if ok then DownloadSucceeded
                         else DownloadFailed("update signature verification failed", false);
            Settled(s.(controller := Handled(s.controller, input, m).0))
  {
    if !ok {
      BystandersKeep(s.controller, DownloadFailed("update signature verification failed", false), m);
    }
  }

  /** A stage either succeeds with the pending version, or leaves the controller without a staged version to disagree. */
  lemma StageKeeps(s: System, version: VersionText, outcome: StageOutcome)
    requires Core(s) && s.holder == Some(DownloadRunning(version)) && version.Semver?
    ensures var (repository, ok) := StageInto(s.repository, version.order, outcome);
            HolderInv(Hold(s, StageEnded(version, ok)).(repository := repository))
  {
    if s.repository.Unavailable? {
    } else if s.repository.staged.Some? && version.order <= s.repository.staged.value {
    } else if outcome.Promoted? {
    } else {
    }
  }

  lemma DownloadKeeps(s: System, step: Step, m: Moment)
    requires Core(s) && s.holder.Some? && DownloadDo(s, step, m).Some?
    ensures Core(DownloadDo(s, step, m).value)
  {
    hide Dispatch, StageInto;
    match (s.holder.value, step)
    case (DownloadBegun(release), BeginDownload) =>
      DispatchKeepsController(s, DownloadStarted, m);
      BystandersKeep(s.controller, DownloadStarted, m);
    case (DownloadRunning(_), Advance(progress)) =>
      DispatchKeepsController(s, DownloadAdvanced(progress), m);
      BystandersKeep(s.controller, DownloadAdvanced(progress), m);
    case (DownloadRunning(_), FailDownload(message, retryable)) =>
      DispatchKeepsController(s, DownloadFailed(message, retryable), m);
      BystandersKeep(s.controller, DownloadFailed(message, retryable), m);
    case (DownloadRunning(version), Stage(outcome)) => StageKeeps(s, version, outcome);
    case (StageEnded(version, ok), DispatchStaged) =>
      var input := if ok then DownloadSucceeded else DownloadFailed("update signature verification failed", false);
      DispatchKeepsController(s, input, m);
      StagedIsSettled(s, version, ok, m);
  }

  lemma OutsideKeeps(s: System, input: Input, m: Moment)
    requires Core(s) && IsOutside(input)
    ensures Core(Dispatch(s, input, m))
  {
    hide Dispatch;
    DispatchKeepsController(s, input, m);
    BystandersKeep(s.controller, input, m);
  }

  lemma CoreKept(s: System, step: Step, m: Moment)
    requires Core(s) && Do(s, step, m).Some?
    ensures Core(Do(s, step, m).value)
  {
    hide CheckDo, DownloadDo, Dispatch;
    match step
    case LookAtRepository =>
    case LookAtSnapshot =>
    case Install(_) =>
    case Outside(input) => OutsideKeeps(s, input, m);
    case Acquire(task) =>
    case _ =>
      if s.holder.value.CheckBegun? || s.holder.value.CheckFound? || s.holder.value.CheckPrepared? {
        CheckKeeps(s, step, m);
      } else {
        DownloadKeeps(s, step, m);
      }
  }

  // ---------- Downloads are for newer versions ----------

  lemma {:induction false} TaskHasEffect(effects: seq<Effect>, release: Release)
    requires DownloadTask(release) in TasksOf(effects)
    ensures StartDownload(release) in effects
  {
    if effects[0] != StartDownload(release) {
      TaskHasEffect(effects[1..], release);
    }
  }

  lemma DispatchedTasksAreNew(s: System, input: Input, m: Moment)
    requires UpdateHistory.Inv(s.controller)
    requires forall release :: DownloadTask(release) in s.tasks ==> UpdateHistory.Newer(s.controller, release.version)
    ensures var t := Dispatch(s, input, m);
            && t.controller.running == s.controller.running && t.holder == s.holder && t.installer == s.installer
            && forall release :: DownloadTask(release) in t.tasks ==> UpdateHistory.Newer(t.controller, release.version)
  {
    hide Handled;
    var e := UpdateHistory.Event(input, m);
    UpdateHistory.InvKept(s.controller, e);
    var (after, result) := Handled(s.controller, input, m);
    if result.Accepted? {
      forall release | DownloadTask(release) in TasksOf(result.effects)
        ensures UpdateHistory.Newer(after, release.version)
      {
        TaskHasEffect(result.effects, release);
        assert StartDownload(release) in UpdateHistory.Effects(s.controller, e);
      }
    }
  }

  lemma CheckStaysNew(s: System, step: Step, m: Moment)
    requires UpdateHistory.Inv(s.controller) && NewDownloads(s) && s.holder.Some? && CheckDo(s, step, m).Some?
    ensures NewDownloads(CheckDo(s, step, m).value)
  {
    hide Dispatch, Prepared;
    DispatchedTasksAreNew(s, InputOf(s, step), m);
    match (s.holder.value, step)
    case (CheckBegun, AnswerCheck(CheckBroken(message, retryable))) =>
    case (CheckBegun, AnswerCheck(NothingNew)) =>
    case (CheckBegun, AnswerCheck(Found(release))) =>
    case (CheckFound(release), Prepare(clear)) =>
    case (CheckPrepared(input), DispatchChecked) =>
  }

  lemma DownloadStaysNew(s: System, step: Step, m: Moment)
    requires UpdateHistory.Inv(s.controller) && NewDownloads(s) && s.holder.Some? && DownloadDo(s, step, m).Some?
    ensures NewDownloads(DownloadDo(s, step, m).value)
  {
    hide Dispatch, StageInto;
    DispatchedTasksAreNew(s, InputOf(s, step), m);
    match (s.holder.value, step)
    case (DownloadBegun(release), BeginDownload) =>
    case (DownloadRunning(_), Advance(progress)) =>
    case (DownloadRunning(_), FailDownload(message, retryable)) =>
    case (DownloadRunning(version), Stage(outcome)) =>
    case (StageEnded(version, ok), DispatchStaged) =>
  }

  lemma DownloadsStayNew(s: System, step: Step, m: Moment)
    requires Core(s) && NewDownloads(s) && Do(s, step, m).Some?
    ensures NewDownloads(Do(s, step, m).value)
  {
    hide CheckDo, DownloadDo, Dispatch, HolderInv, UpdateHistory.Inv;
    match step
    case LookAtRepository =>
    case LookAtSnapshot =>
    case Install(_) =>
    case Outside(input) => DispatchedTasksAreNew(s, input, m);
    case Acquire(task) =>
    case _ =>
      if s.holder.value.CheckBegun? || s.holder.value.CheckFound? || s.holder.value.CheckPrepared? {
        CheckStaysNew(s, step, m);
      } else {
        DownloadStaysNew(s, step, m);
      }
  }

  // ---------- Trust ----------

  lemma StagedComesFromDownloads(c: Controller, input: Input, m: Moment)
    requires Handled(c, input, m).0.staged.Some? && !input.RecoverStaged?
    ensures c.staged.Some? || input.DownloadSucceeded?
  {
    match input
    case BecomeReady =>
    case PeriodicCheckDue =>
    case ManualCheck =>
    case CheckSucceeded(_) =>
    case CheckFailed(_, _) =>
    case StagingDiscardFailed =>
    case SetAutomaticDownload(_) =>
    case DownloadStarted =>
    case DownloadAdvanced(_) =>
    case DownloadSucceeded =>
    case DownloadFailed(_, _) =>
    case UserRetry =>
    case RetryDue =>
  }

  /** A dispatch leaves the repository and the installer alone and stages nothing new, except after a clean stage. */
  lemma DispatchStaysTrusted(s: System, input: Input, m: Moment)
    requires UpdateHistory.Inv(s.controller) && Trusted(s) && !input.RecoverStaged?
    requires input.DownloadSucceeded? ==> Clean(s.controller.running, s.repository)
    ensures Trusted(Dispatch(s, input, m)) && Trusted(Unhold(Dispatch(s, input, m)))
    ensures forall version :: Trusted(Hold(Dispatch(s, input, m), DownloadRunning(version)))
  {
    hide Handled, Clean, UpdateHistory.Inv, Dispatch;
    DispatchKeepsController(s, input, m);
    DispatchKeepsInstaller(s, input, m);
    if Handled(s.controller, input, m).0.staged.Some? {
      StagedComesFromDownloads(s.controller, input, m);
    }
  }

  lemma DispatchKeepsInstaller(s: System, input: Input, m: Moment)
    ensures Dispatch(s, input, m).installer == s.installer
  {
  }

  lemma RepositoryStaysClean(running: real, repository: Repository)
    requires Clean(running, repository)
    ensures forall release, clear :: Clean(running, Prepared(repository, release, clear).0)
    ensures forall version, outcome :: version > running ==> Clean(running, StageInto(repository, version, outcome).0)
  {
    forall version: real, outcome | version > running
      ensures Clean(running, StageInto(repository, version, outcome).0)
    {
      match outcome
      case Promoted =>
      case NotPromoted(file, record) =>
        match file { case NoFile => case FileBefore => case NewFile => }
        match record { case RecordBefore => case NoRecord => case RecordOfFile => }
    }
  }

  /** A stage that succeeds makes the repository clean, whatever it held. */
  lemma SuccessIsClean(running: real, repository: Repository, version: real, outcome: StageOutcome)
    requires version > running && StageInto(repository, version, outcome).1
    ensures Clean(running, StageInto(repository, version, outcome).0)
  {
  }

  lemma CheckStaysTrusted(s: System, step: Step, m: Moment)
    requires Core(s) && Trusted(s) && s.holder.Some? && CheckDo(s, step, m).Some?
    ensures Trusted(CheckDo(s, step, m).value)
  {
    hide Dispatch, Prepared, Clean, UpdateHistory.Inv;
    if Clean(s.controller.running, s.repository) {
      RepositoryStaysClean(s.controller.running, s.repository);
    }
    match (s.holder.value, step)
    case (CheckBegun, AnswerCheck(CheckBroken(message, retryable))) =>
      DispatchStaysTrusted(s, CheckFailed(message, retryable), m);
    case (CheckBegun, AnswerCheck(NothingNew)) => DispatchStaysTrusted(s, CheckSucceeded(None), m);
    case (CheckBegun, AnswerCheck(Found(release))) =>
    case (CheckFound(release), Prepare(clear)) =>
    case (CheckPrepared(input), DispatchChecked) => DispatchStaysTrusted(s, input, m);
  }

  lemma DownloadStaysTrusted(s: System, step: Step, m: Moment)
    requires Core(s) && NewDownloads(s) && Trusted(s) && s.holder.Some? && DownloadDo(s, step, m).Some?
    ensures Trusted(DownloadDo(s, step, m).value)
  {
    hide Dispatch, StageInto, Clean, UpdateHistory.Inv, HolderInv;
    match (s.holder.value, step)
    case (DownloadBegun(release), BeginDownload) => DispatchStaysTrusted(s, DownloadStarted, m);
    case (DownloadRunning(_), Advance(progress)) => DispatchStaysTrusted(s, DownloadAdvanced(progress), m);
    case (DownloadRunning(_), FailDownload(message, retryable)) =>
      DispatchStaysTrusted(s, DownloadFailed(message, retryable), m);
    case (DownloadRunning(version), Stage(outcome)) =>
      if Clean(s.controller.running, s.repository) {
        RepositoryStaysClean(s.controller.running, s.repository);
      }
      if StageInto(s.repository, version.order, outcome).1 {
        SuccessIsClean(s.controller.running, s.repository, version.order, outcome);
      }
    case (StageEnded(version, ok), DispatchStaged) => DispatchStaysTrusted(s, InputOf(s, step), m);
  }

  lemma InstallStaysTrusted(s: System, step: Step)
    requires UpdateHistory.Inv(s.controller) && Trusted(s) && InstallDo(s, step).Some?
    ensures Trusted(InstallDo(s, step).value)
  {
    match (s.installer, step)
    case (None, LookAtRepository) =>
    case (Some(Looked(hasStaged)), LookAtSnapshot) =>
    case (Some(Allowed), Install(verifies)) =>
  }

  lemma TrustStays(s: System, step: Step, m: Moment)
    requires Inv(s) && Do(s, step, m).Some?
    ensures Trusted(Do(s, step, m).value)
  {
    match step
    case LookAtRepository => hide Core, NewDownloads, Trusted, InstallDo; CoreHasController(s); InstallStaysTrusted(s, step);
    case LookAtSnapshot => hide Core, NewDownloads, Trusted, InstallDo; CoreHasController(s); InstallStaysTrusted(s, step);
    case Install(_) => hide Core, NewDownloads, Trusted, InstallDo; CoreHasController(s); InstallStaysTrusted(s, step);
    case Outside(input) =>
      hide Core, NewDownloads, Trusted, Dispatch;
      CoreHasController(s);
      DispatchStaysTrusted(s, input, m);
    case Acquire(task) => hide Core, NewDownloads, Clean;
    case _ =>
      hide Core, NewDownloads, Trusted, CheckDo, DownloadDo;
      if s.holder.value.CheckBegun? || s.holder.value.CheckFound? || s.holder.value.CheckPrepared? {
        CheckStaysTrusted(s, step, m);
      } else {
        DownloadStaysTrusted(s, step, m);
      }
  }

  lemma CoreHasController(s: System)
    requires Core(s)
    ensures UpdateHistory.Inv(s.controller)
  {
  }

  lemma StepKeeps(s: System, step: Step, m: Moment)
    requires Inv(s) && Do(s, step, m).Some?
    ensures Inv(Do(s, step, m).value)
  {
    hide Do, Core, NewDownloads, Trusted;
    CoreKept(s, step, m);
    DownloadsStayNew(s, step, m);
    TrustStays(s, step, m);
  }

  lemma {:induction false} RunKeeps(s: System, steps: seq<(Step, Moment)>)
    requires Inv(s) && Run(s, steps).Some?
    ensures Inv(Run(s, steps).value)
    decreases |steps|
  {
    hide Inv, Do;
    if steps != [] {
      StepKeeps(s, steps[0].0, steps[0].1);
      RunKeeps(Do(s, steps[0].0, steps[0].1).value, steps[1..]);
    }
  }

  lemma StartIsSettled(running: real, preference: Option<bool>, repository: Repository, m: Moment)
    requires Startable(repository)
    ensures Inv(Start(running, preference, repository, m))
    ensures Start(running, preference, repository, m).controller.running == running
  {
    if repository.Opened? && repository.staged.Some? {
      var e := UpdateHistory.Event(RecoverStaged(Semver(repository.staged.value)), m);
      UpdateHistory.InvKept(Initial(running, preference), e);
    }
  }

  // ---------- Installation ----------

  lemma AllowedIsConsistent(s: System)
    requires Inv(s) && s.controller.snapshot.state.Staged? && s.repository.Opened? && s.repository.staged.Some?
    ensures s.controller.snapshot.state.version == Semver(s.repository.staged.value)
    ensures s.repository.staged.value > s.controller.running
  {
    match s.holder
    case Some(CheckFound(release)) =>
    case Some(CheckPrepared(input)) =>
    case Some(DownloadRunning(version)) =>
    case Some(StageEnded(version, ok)) =>
    case _ =>
  }

  lemma ControllerInv(s: System)
    requires Inv(s)
    ensures UpdateHistory.Inv(s.controller)
  {
  }

  lemma {:induction false} RunningStays(s: System, steps: seq<(Step, Moment)>)
    requires Inv(s) && Run(s, steps).Some?
    ensures Run(s, steps).value.controller.running == s.controller.running
    decreases |steps|
  {
    hide Inv, Do;
    if steps != [] {
      StepKeeps(s, steps[0].0, steps[0].1);
      ControllerInv(s);
      StepIsDispatch(s, steps[0].0, steps[0].1);
      RunningStays(Do(s, steps[0].0, steps[0].1).value, steps[1..]);
    }
  }

  /** The input a step dispatches, if it dispatches one. */
  function InputOf(s: System, step: Step): Input {
    match step
    case Outside(input) => input
    case AnswerCheck(CheckBroken(message, retryable)) => CheckFailed(message, retryable)
    case AnswerCheck(NothingNew) => CheckSucceeded(None)
    case DispatchChecked =>
      if s.holder.Some? && s.holder.value.CheckPrepared? then s.holder.value.input else RetryDue
    case BeginDownload => DownloadStarted
    case Advance(progress) => DownloadAdvanced(progress)
    case FailDownload(message, retryable) => DownloadFailed(message, retryable)
    case DispatchStaged =>
      if s.holder.Some? && s.holder.value.StageEnded? && s.holder.value.ok then DownloadSucceeded
      else DownloadFailed("update signature verification failed", false)
    case _ => RetryDue
  }

  /** A step changes the controller and the publications only by a dispatch. */
  lemma StepIsThisDispatch(s: System, step: Step, m: Moment)
    requires Do(s, step, m).Some?
    ensures var (t, d) := (Do(s, step, m).value, Dispatch(s, InputOf(s, step), m));
            || (t.controller == s.controller && t.published == s.published)
            || (t.controller == d.controller && t.published == d.published)
  {
    hide Dispatch, Prepared, StageInto;
    match step
    case LookAtRepository =>
    case LookAtSnapshot =>
    case Install(_) =>
    case Outside(_) =>
    case Acquire(_) =>
    case AnswerCheck(CheckBroken(_, _)) =>
    case AnswerCheck(NothingNew) =>
    case AnswerCheck(Found(_)) =>
    case Prepare(_) =>
    case DispatchChecked =>
    case BeginDownload =>
    case Advance(_) =>
    case FailDownload(_, _) =>
    case Stage(_) =>
    case DispatchStaged =>
  }

  lemma StepIsDispatch(s: System, step: Step, m: Moment)
    requires UpdateHistory.Inv(s.controller) && Do(s, step, m).Some?
    ensures var t := Do(s, step, m).value;
            && t.controller.running == s.controller.running
            && ((t.controller == s.controller && t.published == s.published) ||
                exists input :: t.controller == Dispatch(s, input, m).controller &&
                                t.published == Dispatch(s, input, m).published)
  {
    hide Do, Dispatch, InputOf, UpdateHistory.Inv;
    StepIsThisDispatch(s, step, m);
    DispatchKeepsController(s, InputOf(s, step), m);
  }

  /**
   From any start, under any interleaving: in every state in which `staged_install_allowed` holds, the repository holds
   exactly the version that the controller shows as staged, and it exceeds the running version.
   */
  lemma InstallIsConsistent(
    running: real, preference: Option<bool>, repository: Repository, m: Moment, steps: seq<(Step, Moment)>)
    requires Startable(repository) && Run(Start(running, preference, repository, m), steps).Some?
    ensures var s := Run(Start(running, preference, repository, m), steps).value;
            InstallAllowed(s.controller.snapshot, s.repository.Opened? && s.repository.staged.Some?) ==>
              s.controller.snapshot.state.version == Semver(s.repository.staged.value) &&
              s.repository.staged.value > running
  {
    hide Inv, Run, Do, Start;
    var start := Start(running, preference, repository, m);
    StartIsSettled(running, preference, repository, m);
    RunKeeps(start, steps);
    RunningStays(start, steps);
    var s := Run(start, steps).value;
    if InstallAllowed(s.controller.snapshot, s.repository.Opened? && s.repository.staged.Some?) {
      AllowedIsConsistent(s);
    }
  }

  /**
   And although `has_staged` reads the repository and the snapshot one after the other, and `install_staged` takes the
   repository once more, with checks and downloads going on in between: whatever version verification then hands out
   exceeds the running version.
   */
  lemma InstalledIsNewer(
    running: real, preference: Option<bool>, repository: Repository, m: Moment, steps: seq<(Step, Moment)>, v: real)
    requires Startable(repository) && Run(Start(running, preference, repository, m), steps).Some?
    requires Run(Start(running, preference, repository, m), steps).value.installer == Some(Gone(Some(v)))
    ensures v > running
  {
    hide Core, NewDownloads, Run, Do, Start;
    var start := Start(running, preference, repository, m);
    StartIsSettled(running, preference, repository, m);
    RunKeeps(start, steps);
    RunningStays(start, steps);
  }

  // ---------- Publication ----------

  /** The published snapshots have consecutive sequence numbers and end with the current one. */
  predicate Consecutive(s: System) {
    && s.published != []
    && (forall i :: 0 <= i < |s.published| ==> s.published[i].sequence == s.published[0].sequence + i)
    && s.published[|s.published| - 1] == s.controller.snapshot
  }

  lemma DispatchIsConsecutive(s: System, input: Input, m: Moment)
    requires Consecutive(s)
    ensures Consecutive(Dispatch(s, input, m))
  {
    hide Transition;
    UpdateHistory.SequenceAndErrors(s.controller, UpdateHistory.Event(input, m));
  }

  lemma StartIsConsecutive(running: real, preference: Option<bool>, repository: Repository, m: Moment)
    ensures Consecutive(Start(running, preference, repository, m))
  {
  }

  lemma {:induction false} RunIsConsecutive(s: System, steps: seq<(Step, Moment)>)
    requires Inv(s) && Consecutive(s) && Run(s, steps).Some?
    ensures Consecutive(Run(s, steps).value)
    decreases |steps|
  {
    hide Inv, Do, Dispatch;
    if steps != [] {
      var (step, m) := steps[0];
      var t := Do(s, step, m).value;
      StepKeeps(s, step, m);
      ControllerInv(s);
      StepIsDispatch(s, step, m);
      if t.controller != s.controller || t.published != s.published {
        var input :| t.controller == Dispatch(s, input, m).controller && t.published == Dispatch(s, input, m).published;
        DispatchIsConsecutive(s, input, m);
      }
      RunIsConsecutive(t, steps[1..]);
    }
  }

  /** In every run the published snapshots have consecutive sequence numbers and end with the current one. */
  lemma PublishedInOrder(
    running: real, preference: Option<bool>, repository: Repository, m: Moment, steps: seq<(Step, Moment)>)
    requires Startable(repository) && Run(Start(running, preference, repository, m), steps).Some?
    ensures Consecutive(Run(Start(running, preference, repository, m), steps).value)
  {
    hide Inv, Run, Do, Start, Consecutive;
    StartIsSettled(running, preference, repository, m);
    StartIsConsecutive(running, preference, repository, m);
    RunIsConsecutive(Start(running, preference, repository, m), steps);
  }
}
