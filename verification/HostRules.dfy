/**
 The host protocol read field by field: when each step is possible, and who writes what. The transition function says
 what a step does; here every field has one rule that names all its writers (src-tauri/src/main.rs:343-589, 1081-1615,
 1662-1746).
 */
module HostRules {
  import opened Bytes
  import opened HostProtocol

  // ---------- When a step is possible ----------

  predicate AtPlace(s: State, g: nat, pcs: set<AttemptPc>) {
    g in s.agents && s.agents[g].Attempt? && s.agents[g].attempt in pcs
  }

  predicate RetryAt(s: State, g: nat, pcs: set<RetryPc>) {
    g in s.agents && s.agents[g].Retry? && s.agents[g].retry in pcs
  }

  predicate ShutdownAt(s: State, g: nat, pcs: set<ShutdownPc>) {
    g in s.agents && s.agents[g].Shutdown? && s.agents[g].shutdown in pcs
  }

  /** The number is still the current one, and no shutdown was asked for. */
  predicate StillCurrent(s: State, g: nat) {
    s.phase.generation == g && s.phase.shuttingDown == false
  }

  predicate LeaderRuns(s: State, g: nat) {
    g in s.custody.processes && s.custody.processes[g].leaderExited == false
  }

  predicate WholeTreeGone(s: State, p: nat) {
    p in s.custody.processes && s.custody.processes[p].leaderExited && s.custody.processes[p].treeExited
  }

  /** A user may retry: the start failed, or it takes long. */
  predicate Retryable(l: Lifecycle) {
    l in {Failed, ProlongedStartup}
  }

  predicate MovePossible(s: State, g: nat, a: MoveAction) {
    match a
    case Cancel => AtPlace(s, g, {Waiting, Probed, Watching}) && !StillCurrent(s, g)
    case SeeExit =>
      AtPlace(s, g, {Waiting, Probed, Watching}) && g in s.custody.processes && s.custody.processes[g].leaderExited
    case ProbeError => AtPlace(s, g, {Waiting, Probed, Watching})
    case Probe => AtPlace(s, g, {Waiting})
    case Prolong => AtPlace(s, g, {Waiting})
    case ConfirmReady => AtPlace(s, g, {Probed}) && StillCurrent(s, g) && LeaderRuns(s, g)
    case AfterRefusal => AtPlace(s, g, {Refused})
    case Queue => AtPlace(s, g, {Navigating})
    case Dismiss => AtPlace(s, g, {ExitFound})
    case Abort => AtPlace(s, g, {ExitFound})
  }

  predicate SpawnPossible(s: State, g: nat, a: SpawnAction) {
    match a
    case Enter => AtPlace(s, g, {Launched}) && s.custody.lifecycleGate == None
    case SpawnFails => AtPlace(s, g, {Spawning})
    case Spawn => AtPlace(s, g, {Spawning})
    case Recheck => AtPlace(s, g, {Spawned})
    case Store => AtPlace(s, g, {Rechecked})
    case DiscardEnds(ok) => AtPlace(s, g, {Discarding}) && (ok ==> WholeTreeGone(s, g))
    case CollideEnds(ok) => AtPlace(s, g, {Colliding}) && (ok ==> WholeTreeGone(s, g))
  }

  predicate StopPossible(s: State, g: nat, a: StopAction) {
    match a
    case AbortEnds(ok) => AtPlace(s, g, {Aborting}) && (ok ==> WholeTreeGone(s, g))
    case Clear => AtPlace(s, g, {Clearing})
  }

  /** The section an agent is about to enter. */
  function SectionOf(s: State, g: nat): Option<Section> {
    if AtPlace(s, g, {Holding}) then Some(PublishWaiting(g))
    else if AtPlace(s, g, {Prolonging}) then Some(PublishProlonged(g))
    else if AtPlace(s, g, {Serving}) then Some(PublishHost(g))
    else if AtPlace(s, g, {Failing}) || RetryAt(s, g, {RetryFailing}) then Some(PublishFailed(g))
    else None
  }

  predicate SectionPossible(s: State, g: nat, a: SectionAction) {
    && SectionOf(s, g).Some?
    && s.view.section == if a == Open then None else SectionOf(s, g)
  }

  /** A stop that succeeds has seen the whole tree gone; without a tree there is nothing that could fail. */
  predicate StopEndsPossible(s: State, taken: Option<nat>, ok: bool) {
    if taken.None? then ok else ok ==> WholeTreeGone(s, taken.value)
  }

  predicate RetryPossible(s: State, g: nat, a: RetryAction) {
    match a
    case RetryEnter => RetryAt(s, g, {RetryQueued}) && s.custody.lifecycleGate == None
    case RetryTake => RetryAt(s, g, {RetryTaking})
    case RetryStopEnds(ok) =>
      && g in s.agents && s.agents[g].Retry? && s.agents[g].retry.RetryStopping?
      && StopEndsPossible(s, s.agents[g].retry.taken, ok)
    case RetryLower => RetryAt(s, g, {RetryStopped})
    case RetryDecide => RetryAt(s, g, {RetryDeciding})
    case RetryRestart => RetryAt(s, g, {RetryRestarting}) && s.view.section == None && s.view.navigationGate == None
    case RetryReturn => g in s.agents && s.agents[g].Retry? && s.agents[g].retry.RetryReturning?
    case RetryLeave => RetryAt(s, g, {RetryLeaving})
  }

  predicate ShutdownPossible(s: State, g: nat, a: ShutdownAction) {
    match a
    case ShutdownEnter => ShutdownAt(s, g, {ShutdownQueued}) && s.custody.lifecycleGate == None
    case ShutdownTake => ShutdownAt(s, g, {ShutdownTaking})
    case ShutdownStopEnds(ok) =>
      && g in s.agents && s.agents[g].Shutdown? && s.agents[g].shutdown.ShutdownStopping?
      && StopEndsPossible(s, s.agents[g].shutdown.taken, ok)
    case ShutdownLeave => ShutdownAt(s, g, {ShutdownStopped(true), ShutdownStopped(false)})
    case ShutdownInstall => ShutdownAt(s, g, {ShutdownReleased(true)})
  }

  predicate RequestPossible(s: State, r: Request) {
    match r
    case StartFirst => !s.phase.started && s.view.section == None && s.view.navigationGate == None
    case ClickRetry => !s.retrying
    case EnterRetry => s.retryPending && s.view.section == None && s.view.navigationGate == None
    case ClickShutdown => !s.phase.shuttingDown
    case EnterShutdown => s.phase.shutdownPending && s.view.section == None && s.view.navigationGate == None
  }

  predicate WebPossible(s: State, w: WebAction) {
    var section := s.view.section;
    match w
    case RunTask(task) => task in s.tasks && section == None && s.view.navigationGate == None
    case CloseArm => section.Some? && section.value.ArmNavigation?
    case CloseReset => section.Some? && section.value.ResetForStartup?
    case Navigated(_) =>
      && s.view.navigationGate.Some?
      && (section.Some? ==> !section.value.ArmNavigation? && !section.value.ResetForStartup?)
    case OpenBegin(url) =>
      && section == None && !s.phase.shuttingDown
      && s.view.navigation == Some(s.phase.generation) && s.view.navigationUrl == Some(url)
    case CloseBegin => section.Some? && section.value.BeginLoad?
    case OpenFinish(url) =>
      && section == None && !s.phase.shuttingDown && s.view.lifecycle in {WaitingForClient, ProlongedStartup}
      && s.view.host == Some(s.phase.generation)
      && s.view.load == Some(s.phase.generation) && s.view.loadUrl == Some(url)
    case CloseFinish => section.Some? && section.value.FinishLoad?
  }

  predicate Possible(s: State, step: Step) {
    match step
    case SpawnStep(g, a) => SpawnPossible(s, g, a)
    case MoveStep(g, a) => MovePossible(s, g, a)
    case StopStep(g, a) => StopPossible(s, g, a)
    case SectionStep(g, a) => SectionPossible(s, g, a)
    case RetryStep(g, a) => RetryPossible(s, g, a)
    case ShutdownStep(g, a) => ShutdownPossible(s, g, a)
    case RequestStep(r) => RequestPossible(s, r)
    case WebStep(w) => WebPossible(s, w)
    case LeaderExits(p) => p in s.custody.processes
    case TreeExits(p) => p in s.custody.processes
  }

  lemma RetryPossibleExactly(s: State, g: nat, a: RetryAction)
    ensures Do(s, RetryStep(g, a)).Some? <==> RetryPossible(s, g, a)
  {
    hide SpawnDo, MoveDo, StopDo, SectionDo, ShutdownDo, RequestDo, WebDo, Bump, Confirm;
    match a
    case RetryStopEnds(ok) => if ok {} else {}
    case _ =>
  }

  lemma WebPossibleExactly(s: State, w: WebAction)
    ensures Do(s, WebStep(w)).Some? <==> WebPossible(s, w)
  {
    hide SpawnDo, MoveDo, StopDo, SectionDo, RetryDo, ShutdownDo, RequestDo;
    match w
    case _ =>
  }

  /** The steps that a state allows. */
  lemma PossibleExactly(s: State, step: Step)
    ensures Do(s, step).Some? <==> Possible(s, step)
  {
    hide Bump, Confirm, Abandon, CloseSection, RetryDo, RetryPossible, WebDo, WebPossible;
    match step
    case SpawnStep(g, a) =>
    case MoveStep(g, a) =>
    case StopStep(g, a) =>
    case SectionStep(g, a) =>
    case RetryStep(g, a) => RetryPossibleExactly(s, g, a);
    case ShutdownStep(g, a) =>
    case RequestStep(r) =>
    case WebStep(w) => WebPossibleExactly(s, w);
    case LeaderExits(_) =>
    case TreeExits(_) =>
  }

  // ---------- What is announced ----------

  /** The process of this generation is in the slot and its leader runs. */
  predicate InSlot(s: State, g: nat) {
    s.custody.slot == Some(g) && LeaderRuns(s, g)
  }

  function Bumping(s: State, l: Lifecycle): seq<Event> {
    [Bumped(s.phase.generation + 1), Published(l)]
  }

  /** What closing an agent's section announces. */
  function SectionNews(s: State, g: nat): seq<Event> {
    if AtPlace(s, g, {Holding}) then [Published(WaitingForClient)]
    else if AtPlace(s, g, {Prolonging}) then
      if StillCurrent(s, g) && s.view.lifecycle in {WaitingForClient, ProlongedStartup} then [Published(ProlongedStartup)]
      else []
    else if AtPlace(s, g, {Serving}) then if InSlot(s, g) then [HostPublished(g)] else []
    else [Published(Failed)]
  }

  /** What closing a section of the WebView announces; its process must be in the slot. */
  function WebNews(s: State, w: WebAction): seq<Event> {
    if s.view.section.None? || !InSlot(s, s.view.section.value.generation) then []
    else
      match s.view.section.value
      case ArmNavigation(g) => if w == CloseArm then [NavigationArmed(g, HostPage(g))] else []
      case BeginLoad(g, url) => if w == CloseBegin then [LoadStarted(g, url)] else []
      case FinishLoad(g, url) => if w == CloseFinish then [LoadFinished(g, url), Published(Ready)] else []
      case _ => []
  }

  /** A generation is handed out for a first start, a retry of a failed or long start, a restart and a shutdown. */
  function News(s: State, step: Step): seq<Event> {
    match step
    case MoveStep(g, Probe) => [ProbeSucceeded(g)]
    case SectionStep(g, Close) => SectionNews(s, g)
    case RetryStep(_, RetryRestart) => Bumping(s, Starting)
    case RequestStep(StartFirst) => Bumping(s, Starting)
    case RequestStep(EnterRetry) => if Retryable(s.view.lifecycle) then Bumping(s, Stopping) else []
    case RequestStep(EnterShutdown) => [ShutdownEntered] + Bumping(s, Stopping)
    case WebStep(w) => WebNews(s, w)
    case _ => []
  }

  /** The last lifecycle state in the news. */
  function LastPublished(news: seq<Event>, before: Lifecycle): Lifecycle {
    if news != [] && news[|news| - 1].Published? then news[|news| - 1].lifecycle else before
  }

  predicate Bumps(s: State, step: Step) {
    || step == RequestStep(StartFirst) || step == RequestStep(EnterShutdown)
    || (step == RequestStep(EnterRetry) && Retryable(s.view.lifecycle))
    || (step.RetryStep? && step.retry == RetryRestart)
  }

  // ---------- Who writes what ----------

  function PhaseAfter(s: State, step: Step): Phase {
    Phase(
      if Bumps(s, step) then s.phase.generation + 1 else s.phase.generation,
      s.phase.started || step == RequestStep(StartFirst),
      s.phase.shuttingDown || step == RequestStep(ClickShutdown),
      (s.phase.shutdownPending || step == RequestStep(ClickShutdown)) && step != RequestStep(EnterShutdown),
      if step == RequestStep(EnterShutdown) then Some(s.phase.generation + 1) else s.phase.shutdownAgent)
  }

  /** The slot is filled by the attempt that stores its process and by a retry that gives one back. */
  function SlotAfter(s: State, step: Step): Option<nat> {
    match step
    case SpawnStep(g, Store) => if s.custody.slot == None then Some(g) else s.custody.slot
    case StopStep(g, Clear) => if s.custody.slot == Some(g) then None else s.custody.slot
    case RetryStep(_, RetryTake) => None
    case RetryStep(g, RetryReturn) => if g in s.agents && s.agents[g].Retry? && s.agents[g].retry.RetryReturning?
                                      then Some(s.agents[g].retry.pid) else None
    case ShutdownStep(_, ShutdownTake) => None
    case _ => s.custody.slot
  }

  /** The lifecycle gate is taken by an attempt that is current, and by the workers. */
  function GateAfter(s: State, step: Step): Option<nat> {
    match step
    case SpawnStep(g, Enter) => if StillCurrent(s, g) then Some(g) else None
    case SpawnStep(_, SpawnFails) => None
    case SpawnStep(_, Store) => if s.custody.slot == None then None else s.custody.lifecycleGate
    case SpawnStep(_, DiscardEnds(_)) => None
    case SpawnStep(_, CollideEnds(_)) => None
    case RetryStep(g, RetryEnter) => Some(g)
    case RetryStep(_, RetryLeave) => None
    case ShutdownStep(g, ShutdownEnter) => Some(g)
    case ShutdownStep(_, ShutdownLeave) => None
    case _ => s.custody.lifecycleGate
  }

  /** The tree whose stop ends with this step, with success or not. */
  function Stops(s: State, step: Step): Option<(nat, bool)> {
    match step
    case SpawnStep(g, DiscardEnds(ok)) => Some((g, ok))
    case SpawnStep(g, CollideEnds(ok)) => Some((g, ok))
    case StopStep(g, AbortEnds(ok)) => Some((g, ok))
    case RetryStep(g, RetryStopEnds(ok)) =>
      if g in s.agents && s.agents[g].Retry? && s.agents[g].retry.RetryStopping? && s.agents[g].retry.taken.Some?
      then Some((s.agents[g].retry.taken.value, ok)) else None
    case ShutdownStep(g, ShutdownStopEnds(ok)) =>
      if g in s.agents && s.agents[g].Shutdown? && s.agents[g].shutdown.ShutdownStopping? &&
         s.agents[g].shutdown.taken.Some?
      then Some((s.agents[g].shutdown.taken.value, ok)) else None
    case _ => None
  }

  /** A tree begins unstopped; it is confirmed by a stop that succeeds and abandoned by a discarding one that fails. */
  function ProcessAfter(s: State, step: Step, p: nat): Option<Process> {
    if step == SpawnStep(p, Spawn) then Some(Process(false, false, false, false))
    else if p !in s.custody.processes then None
    else
      var process := s.custody.processes[p];
      Some(Process(process.leaderExited || step == LeaderExits(p),
                   process.treeExited || step == TreeExits(p),
                   process.confirmed || Stops(s, step) == Some((p, true)),
                   process.abandoned || step == SpawnStep(p, DiscardEnds(false))))
  }

  function LostAfter(s: State, step: Step): set<nat> {
    match step
    case ShutdownStep(_, ShutdownStopEnds(false)) =>
      if Stops(s, step).Some? then s.custody.lost + {Stops(s, step).value.0} else s.custody.lost
    case _ => s.custody.lost
  }

  predicate ClearsTokens(s: State, step: Step) {
    || Bumps(s, step) || step == WebStep(CloseReset)
    || (step.SectionStep? && step.action == Close &&
        (AtPlace(s, step.generation, {Failing}) || RetryAt(s, step.generation, {RetryFailing})))
  }

  predicate Arms(s: State, step: Step) {
    step == WebStep(CloseArm) && s.view.section.Some? && InSlot(s, s.view.section.value.generation)
  }

  predicate Begins(s: State, step: Step) {
    && step == WebStep(CloseBegin) && s.view.section.Some? && s.view.section.value.BeginLoad?
    && InSlot(s, s.view.section.value.generation)
  }

  predicate Finishes(s: State, step: Step) {
    step == WebStep(CloseFinish) && s.view.section.Some? && InSlot(s, s.view.section.value.generation)
  }

  predicate NavigationFails(s: State, step: Step) {
    step == WebStep(Navigated(false)) && s.view.navigationGate.Some? && s.view.navigationGate.value.ToHost?
  }

  predicate Serves(s: State, step: Step) {
    && step.SectionStep? && step.action == Close && AtPlace(s, step.generation, {Serving})
    && InSlot(s, step.generation)
  }

  function HostAfter(s: State, step: Step): Option<nat> {
    if ClearsTokens(s, step) then None
    else if Serves(s, step) then Some(step.generation)
    else s.view.host
  }

  function NavigationAfter(s: State, step: Step): (Option<nat>, Option<Url>) {
    if ClearsTokens(s, step) || Finishes(s, step) || NavigationFails(s, step) then (None, None)
    else if Arms(s, step) then
      (Some(s.view.section.value.generation), Some(HostPage(s.view.section.value.generation)))
    else (s.view.navigation, s.view.navigationUrl)
  }

  function LoadAfter(s: State, step: Step): (Option<nat>, Option<Url>) {
    if ClearsTokens(s, step) || Finishes(s, step) || Arms(s, step) then (None, None)
    else if Begins(s, step) then (Some(s.view.section.value.generation), Some(s.view.section.value.url))
    else (s.view.load, s.view.loadUrl)
  }

  /** A navigation task that still is current, and for the page also the published one, takes both gates. */
  predicate Runs(s: State, task: Task) {
    StillCurrent(s, task.generation) && (task.ToHost? ==> s.view.host == Some(task.generation))
  }

  function OpenSectionAfter(s: State, step: Step): Option<Section> {
    match step
    case SectionStep(g, Open) => if StillCurrent(s, g) then SectionOf(s, g) else None
    case SectionStep(_, Close) => None
    case WebStep(RunTask(ToHost(g))) => if Runs(s, ToHost(g)) then Some(ArmNavigation(g)) else None
    case WebStep(RunTask(ToStartup(g))) => if Runs(s, ToStartup(g)) then Some(ResetForStartup(g)) else None
    case WebStep(OpenBegin(url)) => Some(BeginLoad(s.phase.generation, url))
    case WebStep(OpenFinish(url)) => Some(FinishLoad(s.phase.generation, url))
    case WebStep(Navigated(_)) => s.view.section
    case WebStep(_) => None
    case _ => s.view.section
  }

  /** The navigation gate is kept until the navigation is over, or given back at once when the process is gone. */
  function NavigationGateAfter(s: State, step: Step): Option<Task> {
    match step
    case WebStep(RunTask(task)) => if Runs(s, task) then Some(task) else None
    case WebStep(CloseArm) => if Arms(s, step) then s.view.navigationGate else None
    case WebStep(Navigated(_)) => None
    case _ => s.view.navigationGate
  }

  function TasksAfter(s: State, step: Step): set<Task> {
    match step
    case MoveStep(g, Queue) => s.tasks + {ToHost(g)}
    case SectionStep(g, Close) =>
      if SectionOf(s, g) == Some(PublishFailed(g)) then s.tasks + {ToStartup(g)} else s.tasks
    case WebStep(RunTask(task)) => s.tasks - {task}
    case _ => s.tasks
  }

  /** The flag of a retry that is under way: up with the click, down when the retry is dropped or its stop has ended. */
  function RetryingAfter(s: State, step: Step): bool {
    match step
    case RequestStep(ClickRetry) => true
    case RequestStep(EnterRetry) => s.retrying && Retryable(s.view.lifecycle)
    case RetryStep(_, RetryLower) => false
    case RetryStep(_, RetryReturn) => false
    case _ => s.retrying
  }

  function RetryPendingAfter(s: State, step: Step): bool {
    step == RequestStep(ClickRetry) || (s.retryPending && step != RequestStep(EnterRetry))
  }

  // ---------- Where the agents go ----------

  function AttemptAfterSpawn(s: State, g: nat, a: SpawnAction): AttemptPc {
    match a
    case Enter => if StillCurrent(s, g) then Spawning else Failing
    case SpawnFails => Failing
    case Spawn => Spawned
    case Recheck => if StillCurrent(s, g) then Rechecked else Discarding
    case Store => if s.custody.slot == None then Holding else Colliding
    case DiscardEnds(_) => Failing
    case CollideEnds(_) => Failing
  }

  function AttemptAfterMove(s: State, g: nat, a: MoveAction): AttemptPc {
    match a
    case Cancel => Done
    case SeeExit => ExitFound
    case ProbeError => ExitFound
    case Probe => Probed
    case Prolong => Prolonging
    case ConfirmReady => Serving
    case AfterRefusal => if StillCurrent(s, g) then Aborting else Done
    case Queue => Watching
    case Dismiss => Done
    case Abort => Aborting
  }

  /** A refused publication ends the attempt, except that polling goes on and an unserved host is aborted. */
  function AgentAfterSection(s: State, g: nat, a: SectionAction): Agent
    requires g in s.agents
  {
    if a == Open && StillCurrent(s, g) then s.agents[g]
    else if AtPlace(s, g, {Holding}) then Attempt(if a == Close then Waiting else Done)
    else if AtPlace(s, g, {Prolonging}) then Attempt(Waiting)
    else if AtPlace(s, g, {Serving}) then Attempt(if a == Close && InSlot(s, g) then Navigating else Refused)
    else if RetryAt(s, g, {RetryFailing}) then Retry(RetryLeaving)
    else Attempt(Done)
  }

  /** A retry takes the tree out of the slot, stops it, and starts anew; a tree that does not stop goes back. */
  function RetryAfter(s: State, pc: RetryPc, a: RetryAction): RetryPc {
    match a
    case RetryEnter => RetryTaking
    case RetryTake => RetryStopping(s.custody.slot)
    case RetryStopEnds(ok) =>
      if pc.RetryStopping? && pc.taken.Some? && !ok then RetryReturning(pc.taken.value) else RetryStopped
    case RetryLower => RetryDeciding
    case RetryDecide => if s.phase.shuttingDown then RetryLeaving else RetryRestarting
    case RetryRestart => RetryLeaving
    case RetryReturn => RetryFailing
    case RetryLeave => RetryDone
  }

  function ShutdownAfter(s: State, pc: ShutdownPc, a: ShutdownAction): ShutdownPc {
    match a
    case ShutdownEnter => ShutdownTaking
    case ShutdownTake => ShutdownStopping(s.custody.slot)
    case ShutdownStopEnds(ok) => ShutdownStopped(ok)
    case ShutdownLeave => ShutdownReleased(pc == ShutdownStopped(true))
    case ShutdownInstall => ShutdownInstalling
  }

  function NewAgent(step: Step): Agent {
    if step == RequestStep(EnterRetry) then Retry(RetryQueued)
    else if step == RequestStep(EnterShutdown) then Shutdown(ShutdownQueued)
    else Attempt(Launched)
  }

  function AgentAfter(s: State, step: Step, n: nat): Option<Agent> {
    if Bumps(s, step) && n == s.phase.generation + 1 then Some(NewAgent(step))
    else if n !in s.agents then None
    else
      match step
      case SpawnStep(g, a) => Some(if n == g then Attempt(AttemptAfterSpawn(s, g, a)) else s.agents[n])
      case MoveStep(g, a) => Some(if n == g then Attempt(AttemptAfterMove(s, g, a)) else s.agents[n])
      case StopStep(g, a) => Some(if n == g then Attempt(if a == AbortEnds(true) then Clearing else Failing)
                                  else s.agents[n])
      case SectionStep(g, a) => Some(if n == g then AgentAfterSection(s, g, a) else s.agents[n])
      case RetryStep(g, a) =>
        Some(if n == g && s.agents[g].Retry? then Retry(RetryAfter(s, s.agents[g].retry, a)) else s.agents[n])
      case ShutdownStep(g, a) =>
        Some(if n == g && s.agents[g].Shutdown? then Shutdown(ShutdownAfter(s, s.agents[g].shutdown, a))
             else s.agents[n])
      case _ => Some(s.agents[n])
  }

  // ---------- Every step follows the rules ----------

  function Find<T>(m: map<nat, T>, n: nat): Option<T> {
    if n in m then Some(m[n]) else None
  }

  /** The announcements and the published state. */
  predicate Announced(s: State, step: Step, t: State) {
    t.log == s.log + News(s, step) && t.view.lifecycle == LastPublished(News(s, step), s.view.lifecycle)
  }

  predicate CustodyFollows(s: State, step: Step, t: State) {
    && t.custody.slot == SlotAfter(s, step) && t.custody.lifecycleGate == GateAfter(s, step)
    && t.custody.lost == LostAfter(s, step)
  }

  predicate ViewFollows(s: State, step: Step, t: State) {
    && t.view.host == HostAfter(s, step)
    && (t.view.navigation, t.view.navigationUrl) == NavigationAfter(s, step)
    && (t.view.load, t.view.loadUrl) == LoadAfter(s, step)
    && t.view.section == OpenSectionAfter(s, step) && t.view.navigationGate == NavigationGateAfter(s, step)
  }

  predicate RequestsFollow(s: State, step: Step, t: State) {
    && t.phase == PhaseAfter(s, step) && t.tasks == TasksAfter(s, step)
    && t.retrying == RetryingAfter(s, step) && t.retryPending == RetryPendingAfter(s, step)
  }

  ghost predicate AgentsFollow(s: State, step: Step, t: State) {
    forall n: nat :: Find(t.agents, n) == AgentAfter(s, step, n)
  }

  ghost predicate ProcessesFollow(s: State, step: Step, t: State) {
    forall p: nat :: Find(t.custody.processes, p) == ProcessAfter(s, step, p)
  }

  /** All but the view. */
  ghost predicate RestFollows(s: State, step: Step, t: State) {
    && Announced(s, step, t) && CustodyFollows(s, step, t) && RequestsFollow(s, step, t)
    && AgentsFollow(s, step, t) && ProcessesFollow(s, step, t)
  }

  ghost predicate Follows(s: State, step: Step, t: State) {
    ViewFollows(s, step, t) && RestFollows(s, step, t)
  }

  /** The conditions by their other names. */
  lemma SameNames(s: State, g: nat)
    ensures Current(s, g) <==> StillCurrent(s, g)
    ensures AliveInSlot(s, g) <==> InSlot(s, g)
    ensures Awaiting(s.view.lifecycle) <==> s.view.lifecycle in {WaitingForClient, ProlongedStartup}
  {
  }

  lemma SpawnSays(s: State, g: nat, a: SpawnAction, t: State)
    requires Do(s, SpawnStep(g, a)) == Some(t)
    ensures Announced(s, SpawnStep(g, a), t) && CustodyFollows(s, SpawnStep(g, a), t)
  {
    match a
    case Enter => if Current(s, g) {} else {}
    case Recheck => if Current(s, g) {} else {}
    case Store => if s.custody.slot == None {} else {}
    case DiscardEnds(ok) => if ok {} else {}
    case CollideEnds(ok) => if ok {} else {}
    case _ =>
  }

  lemma SpawnShows(s: State, g: nat, a: SpawnAction, t: State)
    requires Do(s, SpawnStep(g, a)) == Some(t)
    ensures ViewFollows(s, SpawnStep(g, a), t)
  {
    match a
    case Enter => if Current(s, g) {} else {}
    case Recheck => if Current(s, g) {} else {}
    case Store => if s.custody.slot == None {} else {}
    case DiscardEnds(ok) => if ok {} else {}
    case CollideEnds(ok) => if ok {} else {}
    case _ =>
  }

  lemma SpawnAsks(s: State, g: nat, a: SpawnAction, t: State)
    requires Do(s, SpawnStep(g, a)) == Some(t)
    ensures RequestsFollow(s, SpawnStep(g, a), t)
  {
    match a
    case Enter => if Current(s, g) {} else {}
    case Recheck => if Current(s, g) {} else {}
    case Store => if s.custody.slot == None {} else {}
    case DiscardEnds(ok) => if ok {} else {}
    case CollideEnds(ok) => if ok {} else {}
    case _ =>
  }

  lemma SpawnMoves(s: State, g: nat, a: SpawnAction, t: State)
    requires Do(s, SpawnStep(g, a)) == Some(t)
    ensures AgentsFollow(s, SpawnStep(g, a), t)
  {
    match a
    case Enter => if Current(s, g) {} else {}
    case Recheck => if Current(s, g) {} else {}
    case Store => if s.custody.slot == None {} else {}
    case DiscardEnds(ok) => if ok {} else {}
    case CollideEnds(ok) => if ok {} else {}
    case _ =>
  }

  lemma SpawnHolds(s: State, g: nat, a: SpawnAction, t: State)
    requires Do(s, SpawnStep(g, a)) == Some(t)
    ensures ProcessesFollow(s, SpawnStep(g, a), t)
  {
    match a
    case Enter => if Current(s, g) {} else {}
    case Recheck => if Current(s, g) {} else {}
    case Store => if s.custody.slot == None {} else {}
    case DiscardEnds(ok) => if ok {} else {}
    case CollideEnds(ok) => if ok {} else {}
    case _ =>
  }

  lemma StopSays(s: State, g: nat, a: StopAction, t: State)
    requires Do(s, StopStep(g, a)) == Some(t)
    ensures Announced(s, StopStep(g, a), t) && CustodyFollows(s, StopStep(g, a), t)
  {
    match a
    case AbortEnds(ok) => if ok {} else {}
    case Clear => if s.custody.slot == Some(g) {} else {}
  }

  lemma StopShows(s: State, g: nat, a: StopAction, t: State)
    requires Do(s, StopStep(g, a)) == Some(t)
    ensures ViewFollows(s, StopStep(g, a), t) && RequestsFollow(s, StopStep(g, a), t)
  {
    match a
    case AbortEnds(ok) => if ok {} else {}
    case Clear => if s.custody.slot == Some(g) {} else {}
  }

  lemma StopMoves(s: State, g: nat, a: StopAction, t: State)
    requires Do(s, StopStep(g, a)) == Some(t)
    ensures AgentsFollow(s, StopStep(g, a), t) && ProcessesFollow(s, StopStep(g, a), t)
  {
    match a
    case AbortEnds(ok) => if ok {} else {}
    case Clear => if s.custody.slot == Some(g) {} else {}
  }

  lemma OpenFollows(s: State, g: nat, t: State)
    requires Do(s, SectionStep(g, Open)) == Some(t)
    ensures Follows(s, SectionStep(g, Open), t)
  {
    SameNames(s, g);
    hide Current, StillCurrent, CloseSection, InSlot;
    if Current(s, g) {} else {}
  }

  lemma CloseFollows(s: State, g: nat, t: State)
    requires Do(s, SectionStep(g, Close)) == Some(t)
    ensures Follows(s, SectionStep(g, Close), t)
  {
    hide Follows, CloseSection;
    match SectionOf(s, g).value
    case PublishWaiting(_) => CloseWaitingFollows(s, g, t);
    case PublishProlonged(_) => CloseProlongedFollows(s, g, t);
    case PublishHost(_) => CloseHostFollows(s, g, t);
    case PublishFailed(_) => CloseFailedFollows(s, g, t);
  }

  lemma CloseWaitingFollows(s: State, g: nat, t: State)
    requires Do(s, SectionStep(g, Close)) == Some(t) && SectionOf(s, g) == Some(PublishWaiting(g))
    ensures Follows(s, SectionStep(g, Close), t)
  {
  }

  lemma CloseProlongedFollows(s: State, g: nat, t: State)
    requires Do(s, SectionStep(g, Close)) == Some(t) && SectionOf(s, g) == Some(PublishProlonged(g))
    ensures Follows(s, SectionStep(g, Close), t)
  {
    SameNames(s, g);
    hide Current, StillCurrent, Awaiting;
    if Awaiting(s.view.lifecycle) && Current(s, g) {} else {}
  }

  lemma CloseHostFollows(s: State, g: nat, t: State)
    requires Do(s, SectionStep(g, Close)) == Some(t) && SectionOf(s, g) == Some(PublishHost(g))
    ensures Follows(s, SectionStep(g, Close), t)
  {
    SameNames(s, g);
    hide AliveInSlot, InSlot, LeaderRuns;
    if AliveInSlot(s, g) {} else {}
  }

  lemma CloseFailedShows(s: State, g: nat, t: State)
    requires Do(s, SectionStep(g, Close)) == Some(t) && SectionOf(s, g) == Some(PublishFailed(g))
    ensures ViewFollows(s, SectionStep(g, Close), t)
  {
  }

  lemma CloseFailedRest(s: State, g: nat, t: State)
    requires Do(s, SectionStep(g, Close)) == Some(t) && SectionOf(s, g) == Some(PublishFailed(g))
    ensures RestFollows(s, SectionStep(g, Close), t)
  {
    hide ResetTokens;
    if AtPlace(s, g, {Failing}) {} else {}
  }

  lemma CloseFailedFollows(s: State, g: nat, t: State)
    requires Do(s, SectionStep(g, Close)) == Some(t) && SectionOf(s, g) == Some(PublishFailed(g))
    ensures Follows(s, SectionStep(g, Close), t)
  {
    hide Do, ViewFollows, RestFollows;
    CloseFailedShows(s, g, t);
    CloseFailedRest(s, g, t);
  }

  lemma RetrySays(s: State, g: nat, a: RetryAction, t: State)
    requires Do(s, RetryStep(g, a)) == Some(t)
    ensures Announced(s, RetryStep(g, a), t) && CustodyFollows(s, RetryStep(g, a), t)
  {
    match a
    case RetryStopEnds(ok) => if s.agents[g].retry.taken == None {} else if ok {} else {}
    case _ =>
  }

  lemma RetryShows(s: State, g: nat, a: RetryAction, t: State)
    requires Do(s, RetryStep(g, a)) == Some(t)
    ensures ViewFollows(s, RetryStep(g, a), t)
  {
    match a
    case RetryStopEnds(ok) => if s.agents[g].retry.taken == None {} else if ok {} else {}
    case _ =>
  }

  lemma RetryAsks(s: State, g: nat, a: RetryAction, t: State)
    requires Do(s, RetryStep(g, a)) == Some(t)
    ensures RequestsFollow(s, RetryStep(g, a), t)
  {
    match a
    case RetryStopEnds(ok) => if s.agents[g].retry.taken == None {} else if ok {} else {}
    case _ =>
  }

  lemma RetryMoves(s: State, g: nat, a: RetryAction, t: State)
    requires Do(s, RetryStep(g, a)) == Some(t)
    ensures AgentsFollow(s, RetryStep(g, a), t)
  {
    match a
    case RetryStopEnds(ok) => if s.agents[g].retry.taken == None {} else if ok {} else {}
    case _ =>
  }

  lemma RetryHolds(s: State, g: nat, a: RetryAction, t: State)
    requires Do(s, RetryStep(g, a)) == Some(t)
    ensures ProcessesFollow(s, RetryStep(g, a), t)
  {
    match a
    case RetryStopEnds(ok) => if s.agents[g].retry.taken == None {} else if ok {} else {}
    case _ =>
  }

  lemma ShutdownSays(s: State, g: nat, a: ShutdownAction, t: State)
    requires Do(s, ShutdownStep(g, a)) == Some(t)
    ensures Announced(s, ShutdownStep(g, a), t) && CustodyFollows(s, ShutdownStep(g, a), t)
  {
    match a
    case ShutdownStopEnds(ok) => if s.agents[g].shutdown.taken == None {} else if ok {} else {}
    case _ =>
  }

  lemma ShutdownShows(s: State, g: nat, a: ShutdownAction, t: State)
    requires Do(s, ShutdownStep(g, a)) == Some(t)
    ensures ViewFollows(s, ShutdownStep(g, a), t) && RequestsFollow(s, ShutdownStep(g, a), t)
  {
    match a
    case ShutdownStopEnds(ok) => if s.agents[g].shutdown.taken == None {} else if ok {} else {}
    case _ =>
  }

  lemma ShutdownMoves(s: State, g: nat, a: ShutdownAction, t: State)
    requires Do(s, ShutdownStep(g, a)) == Some(t)
    ensures AgentsFollow(s, ShutdownStep(g, a), t) && ProcessesFollow(s, ShutdownStep(g, a), t)
  {
    match a
    case ShutdownStopEnds(ok) => if s.agents[g].shutdown.taken == None {} else if ok {} else {}
    case _ =>
  }

  lemma RequestSays(s: State, r: Request, t: State)
    requires Do(s, RequestStep(r)) == Some(t)
    ensures Announced(s, RequestStep(r), t) && CustodyFollows(s, RequestStep(r), t)
  {
    match r
    case EnterRetry => if RetryAllowed(s.view.lifecycle) {} else {}
    case _ =>
  }

  lemma RequestShows(s: State, r: Request, t: State)
    requires Do(s, RequestStep(r)) == Some(t)
    ensures ViewFollows(s, RequestStep(r), t) && RequestsFollow(s, RequestStep(r), t)
  {
    match r
    case EnterRetry => if RetryAllowed(s.view.lifecycle) {} else {}
    case _ =>
  }

  lemma RequestMoves(s: State, r: Request, t: State)
    requires Do(s, RequestStep(r)) == Some(t)
    ensures AgentsFollow(s, RequestStep(r), t) && ProcessesFollow(s, RequestStep(r), t)
  {
    match r
    case EnterRetry => if RetryAllowed(s.view.lifecycle) {} else {}
    case _ =>
  }

  lemma RunTaskShows(s: State, task: Task, t: State)
    requires Do(s, WebStep(RunTask(task))) == Some(t)
    ensures ViewFollows(s, WebStep(RunTask(task)), t)
  {
    SameNames(s, task.generation);
    hide Current, StillCurrent;
    if task.ToHost? {} else {}
  }

  lemma RunTaskRest(s: State, task: Task, t: State)
    requires Do(s, WebStep(RunTask(task))) == Some(t)
    ensures RestFollows(s, WebStep(RunTask(task)), t)
  {
    SameNames(s, task.generation);
    hide Current, StillCurrent;
    if task.ToHost? {} else {}
  }

  lemma RunTaskFollows(s: State, task: Task, t: State)
    requires Do(s, WebStep(RunTask(task))) == Some(t)
    ensures Follows(s, WebStep(RunTask(task)), t)
  {
    hide Do, ViewFollows, RestFollows;
    RunTaskShows(s, task, t);
    RunTaskRest(s, task, t);
  }

  lemma CloseArmShows(s: State, t: State)
    requires Do(s, WebStep(CloseArm)) == Some(t)
    ensures ViewFollows(s, WebStep(CloseArm), t)
  {
    var g := s.view.section.value.generation;
    SameNames(s, g);
    hide AliveInSlot, InSlot, LeaderRuns;
    if AliveInSlot(s, g) {} else {}
  }

  lemma CloseArmRest(s: State, t: State)
    requires Do(s, WebStep(CloseArm)) == Some(t)
    ensures RestFollows(s, WebStep(CloseArm), t)
  {
    var g := s.view.section.value.generation;
    SameNames(s, g);
    hide AliveInSlot, InSlot, LeaderRuns;
    if AliveInSlot(s, g) {} else {}
  }

  lemma CloseArmFollows(s: State, t: State)
    requires Do(s, WebStep(CloseArm)) == Some(t)
    ensures Follows(s, WebStep(CloseArm), t)
  {
    hide Do, ViewFollows, RestFollows;
    CloseArmShows(s, t);
    CloseArmRest(s, t);
  }

  lemma CloseResetFollows(s: State, t: State)
    requires Do(s, WebStep(CloseReset)) == Some(t)
    ensures Follows(s, WebStep(CloseReset), t)
  {
  }

  lemma NavigatedShows(s: State, ok: bool, t: State)
    requires Do(s, WebStep(Navigated(ok))) == Some(t)
    ensures ViewFollows(s, WebStep(Navigated(ok)), t)
  {
    if ok {} else {}
  }

  lemma NavigatedRest(s: State, ok: bool, t: State)
    requires Do(s, WebStep(Navigated(ok))) == Some(t)
    ensures RestFollows(s, WebStep(Navigated(ok)), t)
  {
    if ok {} else {}
  }

  lemma NavigatedFollows(s: State, ok: bool, t: State)
    requires Do(s, WebStep(Navigated(ok))) == Some(t)
    ensures Follows(s, WebStep(Navigated(ok)), t)
  {
    hide Do, ViewFollows, RestFollows;
    NavigatedShows(s, ok, t);
    NavigatedRest(s, ok, t);
  }

  lemma OpenBeginFollows(s: State, url: Url, t: State)
    requires Do(s, WebStep(OpenBegin(url))) == Some(t)
    ensures Follows(s, WebStep(OpenBegin(url)), t)
  {
  }

  lemma CloseBeginShows(s: State, t: State)
    requires Do(s, WebStep(CloseBegin)) == Some(t)
    ensures ViewFollows(s, WebStep(CloseBegin), t)
  {
    var g := s.view.section.value.generation;
    SameNames(s, g);
    hide AliveInSlot, InSlot, LeaderRuns;
    if AliveInSlot(s, g) {} else {}
  }

  lemma CloseBeginRest(s: State, t: State)
    requires Do(s, WebStep(CloseBegin)) == Some(t)
    ensures RestFollows(s, WebStep(CloseBegin), t)
  {
    var g := s.view.section.value.generation;
    SameNames(s, g);
    hide AliveInSlot, InSlot, LeaderRuns;
    if AliveInSlot(s, g) {} else {}
  }

  lemma CloseBeginFollows(s: State, t: State)
    requires Do(s, WebStep(CloseBegin)) == Some(t)
    ensures Follows(s, WebStep(CloseBegin), t)
  {
    hide Do, ViewFollows, RestFollows;
    CloseBeginShows(s, t);
    CloseBeginRest(s, t);
  }

  lemma OpenFinishFollows(s: State, url: Url, t: State)
    requires Do(s, WebStep(OpenFinish(url))) == Some(t)
    ensures Follows(s, WebStep(OpenFinish(url)), t)
  {
  }

  lemma CloseFinishShows(s: State, t: State)
    requires Do(s, WebStep(CloseFinish)) == Some(t)
    ensures ViewFollows(s, WebStep(CloseFinish), t)
  {
    var g := s.view.section.value.generation;
    SameNames(s, g);
    hide AliveInSlot, InSlot, LeaderRuns;
    if AliveInSlot(s, g) {} else {}
  }

  lemma CloseFinishRest(s: State, t: State)
    requires Do(s, WebStep(CloseFinish)) == Some(t)
    ensures RestFollows(s, WebStep(CloseFinish), t)
  {
    var g := s.view.section.value.generation;
    SameNames(s, g);
    hide AliveInSlot, InSlot, LeaderRuns;
    if AliveInSlot(s, g) {} else {}
  }

  lemma CloseFinishFollows(s: State, t: State)
    requires Do(s, WebStep(CloseFinish)) == Some(t)
    ensures Follows(s, WebStep(CloseFinish), t)
  {
    hide Do, ViewFollows, RestFollows;
    CloseFinishShows(s, t);
    CloseFinishRest(s, t);
  }

  lemma WebFollows(s: State, w: WebAction, t: State)
    requires Do(s, WebStep(w)) == Some(t)
    ensures Follows(s, WebStep(w), t)
  {
    hide Do, Follows;
    match w
    case RunTask(task) => RunTaskFollows(s, task, t);
    case CloseArm => CloseArmFollows(s, t);
    case CloseReset => CloseResetFollows(s, t);
    case Navigated(ok) => NavigatedFollows(s, ok, t);
    case OpenBegin(url) => OpenBeginFollows(s, url, t);
    case CloseBegin => CloseBeginFollows(s, t);
    case OpenFinish(url) => OpenFinishFollows(s, url, t);
    case CloseFinish => CloseFinishFollows(s, t);
  }

  lemma MoveFollows(s: State, g: nat, a: MoveAction, t: State)
    requires Do(s, MoveStep(g, a)) == Some(t)
    ensures Follows(s, MoveStep(g, a), t)
  {
    hide Do, Announced, CustodyFollows, ViewFollows, RequestsFollow, AgentsFollow, ProcessesFollow;
    MoveMoves(s, g, a, t);
    MoveShows(s, g, a, t);
  }

  lemma MoveMoves(s: State, g: nat, a: MoveAction, t: State)
    requires Do(s, MoveStep(g, a)) == Some(t)
    ensures AgentsFollow(s, MoveStep(g, a), t)
  {
    SameNames(s, g);
    hide Current, StillCurrent;
    match a
    case _ =>
  }

  lemma MoveShows(s: State, g: nat, a: MoveAction, t: State)
    requires Do(s, MoveStep(g, a)) == Some(t)
    ensures Announced(s, MoveStep(g, a), t) && CustodyFollows(s, MoveStep(g, a), t) && ViewFollows(s, MoveStep(g, a), t)
    ensures RequestsFollow(s, MoveStep(g, a), t) && ProcessesFollow(s, MoveStep(g, a), t)
  {
    hide Move;
  }

  lemma ExitHolds(s: State, step: Step, t: State)
    requires (step.LeaderExits? || step.TreeExits?) && Do(s, step) == Some(t)
    ensures ProcessesFollow(s, step, t)
  {
  }

  lemma ExitShows(s: State, step: Step, t: State)
    requires (step.LeaderExits? || step.TreeExits?) && Do(s, step) == Some(t)
    ensures Announced(s, step, t) && CustodyFollows(s, step, t) && ViewFollows(s, step, t)
    ensures RequestsFollow(s, step, t) && AgentsFollow(s, step, t)
  {
  }

  /** Each field changes by its own rule and by no other. */
  lemma StepFollows(s: State, step: Step, t: State)
    requires Do(s, step) == Some(t)
    ensures Follows(s, step, t)
  {
    hide Do, Announced, CustodyFollows, ViewFollows, RequestsFollow, AgentsFollow, ProcessesFollow;
    match step
    case SpawnStep(g, a) =>
      SpawnSays(s, g, a, t);
      SpawnShows(s, g, a, t);
      SpawnAsks(s, g, a, t);
      SpawnMoves(s, g, a, t);
      SpawnHolds(s, g, a, t);
    case MoveStep(g, a) => MoveFollows(s, g, a, t);
    case StopStep(g, a) => StopSays(s, g, a, t); StopShows(s, g, a, t); StopMoves(s, g, a, t);
    case SectionStep(g, Open) => OpenFollows(s, g, t);
    case SectionStep(g, Close) => CloseFollows(s, g, t);
    case RetryStep(g, a) =>
      RetrySays(s, g, a, t);
      RetryShows(s, g, a, t);
      RetryAsks(s, g, a, t);
      RetryMoves(s, g, a, t);
      RetryHolds(s, g, a, t);
    case ShutdownStep(g, a) => ShutdownSays(s, g, a, t); ShutdownShows(s, g, a, t); ShutdownMoves(s, g, a, t);
    case RequestStep(r) => RequestSays(s, r, t); RequestShows(s, r, t); RequestMoves(s, r, t);
    case WebStep(w) => WebFollows(s, w, t);
    case LeaderExits(_) => ExitHolds(s, step, t); ExitShows(s, step, t);
    case TreeExits(_) => ExitHolds(s, step, t); ExitShows(s, step, t);
  }

  /**
   A retry is granted exactly after a failure and in a prolonged startup: then a generation is handed out, Stopping is
   published, the tokens are cleared and a worker is queued. Otherwise only the flags of the request go down.
   */
  lemma RetryGrantedExactly(s: State, t: State)
    requires Do(s, RequestStep(EnterRetry)) == Some(t)
    ensures if s.view.lifecycle == Failed || s.view.lifecycle == ProlongedStartup then
              var g := s.phase.generation + 1;
              && t.phase == s.phase.(generation := g) && t.agents == s.agents[g := Retry(RetryQueued)]
              && t.view == View(Stopping, None, None, None, None, None, None, None)
              && t.log == s.log + [Bumped(g), Published(Stopping)]
              && t.custody == s.custody && t.tasks == s.tasks && t.retrying == s.retrying && !t.retryPending
            else t == s.(retryPending := false, retrying := false)
  {
    if RetryAllowed(s.view.lifecycle) {} else {}
  }
}
