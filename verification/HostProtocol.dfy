/**
 The owned CLI and its generations, as a transition system (src-tauri/src/main.rs:343-589, 1081-1615, 1662-1746).

 Every generation number is handed out once, by the bump that starts an attempt thread, a retry worker or the shutdown
 worker, so agents are named by their generation. The lifecycle gate and the navigation gate are explicit. A section
 under the event gate is two steps: opening it takes the gate and checks `is_current`, closing it does the remaining
 checks and the writes; any ungated step may come between the two.
 */
module HostProtocol {
  import opened Bytes

  datatype Lifecycle = Starting | WaitingForClient | ProlongedStartup | Ready | Failed | Stopping

  /** The Host page addressed with the fragment of a generation, or any other page. */
  datatype Url = HostPage(generation: nat) | OtherPage(id: nat)

  /**
   A process tree that `spawn_cli` returned; it is named by the generation of the attempt that spawned it. `confirmed`:
   a `stop_process` of this tree returned Ok. `abandoned`: the ignored stop of line 1103 failed.
   */
  datatype Process = Process(leaderExited: bool, treeExited: bool, confirmed: bool, abandoned: bool)

  datatype AttemptPc =
    | Launched    // before the lifecycle gate
    | Spawning    // gate held, generation checked: resolving the plan and calling spawn_cli
    | Spawned     // gate held, spawn_cli has returned
    | Rechecked   // gate held, generation checked again
    | Discarding  // gate held, stale: stopping the tree, outcome ignored
    | Colliding   // gate held, slot occupied: stopping the tree
    | Holding     // about to publish WaitingForClient
    | Waiting     // polling for readiness
    | Prolonging  // inside the prolonged-startup callback
    | Probed      // the probe succeeded; checking generation and child once more
    | Serving     // about to publish the host origin
    | Refused     // the host origin was not published
    | Navigating  // about to queue the navigation
    | Watching    // watching for the exit of the CLI
    | ExitFound   // weighing an observed exit or a failed observation
    | Aborting    // stopping the tree after a failure
    | Clearing    // confirmed; clearing the slot
    | Failing     // fail_attempt
    | Done

  datatype RetryPc =
    | RetryQueued
    | RetryTaking           // gate held, about to take the slot
    | RetryStopping(taken: Option<nat>)
    | RetryStopped
    | RetryDeciding         // the retrying flag is down
    | RetryRestarting       // shutdown was not seen
    | RetryReturning(pid: nat)
    | RetryFailing
    | RetryLeaving          // about to release the gate
    | RetryDone

  datatype ShutdownPc =
    | ShutdownQueued
    | ShutdownTaking
    | ShutdownStopping(taken: Option<nat>)
    | ShutdownStopped(clean: bool)
    | ShutdownReleased(clean: bool)
    | ShutdownInstalling    // install_staged is being called

  datatype Agent = Attempt(attempt: AttemptPc) | Retry(retry: RetryPc) | Shutdown(shutdown: ShutdownPc)

  /** An open event-gate section. */
  datatype Section =
    | PublishWaiting(generation: nat)
    | PublishProlonged(generation: nat)
    | PublishFailed(generation: nat)
    | PublishHost(generation: nat)
    | ArmNavigation(generation: nat)
    | ResetForStartup(generation: nat)
    | BeginLoad(generation: nat, url: Url)
    | FinishLoad(generation: nat, url: Url)

  /** A main-thread navigation task. */
  datatype Task = ToHost(generation: nat) | ToStartup(generation: nat)

  datatype Event =
    | Bumped(generation: nat)
    | ShutdownEntered
    | ProbeSucceeded(generation: nat)
    | HostPublished(generation: nat)
    | NavigationArmed(generation: nat, url: Url)
    | LoadStarted(generation: nat, url: Url)
    | LoadFinished(generation: nat, url: Url)
    | Published(lifecycle: Lifecycle)

  datatype Phase = Phase(
    generation: nat, started: bool, shuttingDown: bool, shutdownPending: bool, shutdownAgent: Option<nat>)

  datatype View = View(
    lifecycle: Lifecycle,
    host: Option<nat>,
    navigation: Option<nat>,
    navigationUrl: Option<Url>,
    load: Option<nat>,
    loadUrl: Option<Url>,
    section: Option<Section>,
    navigationGate: Option<Task>)

  /** `lost`: trees whose stop by the shutdown worker failed. */
  datatype Custody = Custody(
    slot: Option<nat>, lifecycleGate: Option<nat>, processes: map<nat, Process>, lost: set<nat>)

  datatype State = State(
    phase: Phase,
    view: View,
    custody: Custody,
    agents: map<nat, Agent>,
    retrying: bool,
    retryPending: bool,
    tasks: set<Task>,
    log: seq<Event>)

  function Init(): State {
    State(Phase(0, false, false, false, None), View(Starting, None, None, None, None, None, None, None),
          Custody(None, None, map[], {}), map[], false, false, {}, [])
  }

  predicate Current(s: State, g: nat) {
    !s.phase.shuttingDown && s.phase.generation == g
  }

  predicate Awaiting(l: Lifecycle) {
    l == WaitingForClient || l == ProlongedStartup
  }

  predicate RetryAllowed(l: Lifecycle) {
    l == Failed || l == ProlongedStartup
  }

  function ResetTokens(v: View): View {
    v.(host := None, navigation := None, navigationUrl := None, load := None, loadUrl := None)
  }

  function SetAgent(s: State, g: nat, a: Agent): State {
    s.(agents := s.agents[g := a])
  }

  function SetAttempt(s: State, g: nat, pc: AttemptPc): State {
    SetAgent(s, g, Attempt(pc))
  }

  function SetRetry(s: State, g: nat, pc: RetryPc): State {
    SetAgent(s, g, Retry(pc))
  }

  function SetShutdown(s: State, g: nat, pc: ShutdownPc): State {
    SetAgent(s, g, Shutdown(pc))
  }

  function SetGate(s: State, gate: Option<nat>): State {
    s.(custody := s.custody.(lifecycleGate := gate))
  }

  function SetSlot(s: State, slot: Option<nat>): State {
    s.(custody := s.custody.(slot := slot))
  }

  function SetSection(s: State, section: Option<Section>): State {
    s.(view := s.view.(section := section))
  }

  function Log(s: State, e: Event): State {
    s.(log := s.log + [e])
  }

  /** `transition`: the only way a lifecycle state is published. */
  function Publish(s: State, l: Lifecycle): State {
    s.(view := s.view.(lifecycle := l), log := s.log + [Published(l)])
  }

  /** No event section is open and no main-thread navigation is running. */
  predicate GatesFree(s: State) {
    s.view.section == None && s.view.navigationGate == None
  }

  /** The gated part of `start_attempt`, `request_retry` and `request_shutdown`. */
  function Bump(s: State, agent: Agent, l: Lifecycle): State {
    var g := s.phase.generation + 1;
    Publish(SetAgent(Log(s.(phase := s.phase.(generation := g), view := ResetTokens(s.view)), Bumped(g)), g, agent), l)
  }

  predicate Exited(s: State, p: nat) {
    p in s.custody.processes && s.custody.processes[p].leaderExited && s.custody.processes[p].treeExited
  }

  function SetProcess(s: State, p: nat, process: Process): State {
    s.(custody := s.custody.(processes := s.custody.processes[p := process]))
  }

  function Confirm(s: State, p: nat): State {
    if p in s.custody.processes then SetProcess(s, p, s.custody.processes[p].(confirmed := true)) else s
  }

  function Abandon(s: State, p: nat): State {
    if p in s.custody.processes then SetProcess(s, p, s.custody.processes[p].(abandoned := true)) else s
  }

  /** The process in the slot is that of `g` and its leader has not exited. */
  predicate AliveInSlot(s: State, g: nat) {
    s.custody.slot == Some(g) && g in s.custody.processes && !s.custody.processes[g].leaderExited
  }

  /** What an attempt does outside the gates, changing nothing but its own place in the code. */
  datatype MoveAction =
    | Cancel | SeeExit | ProbeError | Probe | Prolong | ConfirmReady | AfterRefusal | Queue | Dismiss | Abort

  predicate Polling(pc: AttemptPc) {
    pc == Waiting || pc == Probed || pc == Watching
  }

  /** Where move `a` takes attempt `g` from `pc`; `None` when it is not enabled. */
  function Move(s: State, g: nat, pc: AttemptPc, a: MoveAction): Option<AttemptPc> {
    match a
    case Cancel => if Polling(pc) && !Current(s, g) then Some(Done) else None
    case SeeExit =>
      if Polling(pc) && g in s.custody.processes && s.custody.processes[g].leaderExited then Some(ExitFound) else None
    case ProbeError => if Polling(pc) then Some(ExitFound) else None
    case Probe => if pc == Waiting then Some(Probed) else None
    case Prolong => if pc == Waiting then Some(Prolonging) else None
    case ConfirmReady =>
      if pc == Probed && Current(s, g) && g in s.custody.processes && !s.custody.processes[g].leaderExited then Some(Serving)
      else None
    case AfterRefusal => if pc == Refused then Some(if Current(s, g) then Aborting else Done) else None
    case Queue => if pc == Navigating then Some(Watching) else None
    case Dismiss => if pc == ExitFound then Some(Done) else None  // stale, or no failure required
    case Abort => if pc == ExitFound then Some(Aborting) else None
  }

  function MoveDo(s: State, g: nat, pc: AttemptPc, a: MoveAction): Option<State> {
    match Move(s, g, pc, a)
    case None => None
    case Some(next) =>
      var t := SetAttempt(s, g, next);
      Some(t.(log := if a == Probe then s.log + [ProbeSucceeded(g)] else s.log,
              tasks := if a == Queue then s.tasks + {ToHost(g)} else s.tasks))
  }

  datatype SpawnAction =
    | Enter | SpawnFails | Spawn | Recheck | Store | DiscardEnds(ok: bool) | CollideEnds(ok: bool)

  /** `spawn_direct_cli` of attempt `g`. */
  function SpawnDo(s: State, g: nat, pc: AttemptPc, a: SpawnAction): Option<State> {
    match a
    case Enter =>
      if pc != Launched || s.custody.lifecycleGate != None then None
      else if Current(s, g) then Some(SetGate(SetAttempt(s, g, Spawning), Some(g)))
      else Some(SetAttempt(s, g, Failing))
    case SpawnFails =>
      if pc != Spawning then None else Some(SetGate(SetAttempt(s, g, Failing), None))
    case Spawn =>
      if pc != Spawning then None
      else Some(SetProcess(SetAttempt(s, g, Spawned), g, Process(false, false, false, false)))
    case Recheck =>
      if pc != Spawned then None else Some(SetAttempt(s, g, if Current(s, g) then Rechecked else Discarding))
    case Store =>
      if pc != Rechecked then None
      else if s.custody.slot == None then Some(SetGate(SetSlot(SetAttempt(s, g, Holding), Some(g)), None))
      else Some(SetAttempt(s, g, Colliding))
    case DiscardEnds(ok) =>
      if pc != Discarding || (ok && !Exited(s, g)) then None
      else Some(SetGate(SetAttempt(if ok then Confirm(s, g) else Abandon(s, g), g, Failing), None))
    case CollideEnds(ok) =>
      if pc != Colliding || (ok && !Exited(s, g)) then None
      else Some(SetGate(SetAttempt(if ok then Confirm(s, g) else s, g, Failing), None))
  }

  datatype StopAction = AbortEnds(ok: bool) | Clear

  /** `abort_attempt`, which works on the process outside the lifecycle gate. */
  function StopDo(s: State, g: nat, pc: AttemptPc, a: StopAction): Option<State> {
    match a
    case AbortEnds(ok) =>
      if pc != Aborting || (ok && !Exited(s, g)) then None
      else Some(if ok then SetAttempt(Confirm(s, g), g, Clearing) else SetAttempt(s, g, Failing))
    case Clear =>
      if pc != Clearing then None
      else Some(SetSlot(SetAttempt(s, g, Failing), if s.custody.slot == Some(g) then None else s.custody.slot))
  }

  /** The event-gate section that agent `g` wants to enter at its place in the code. */
  function Wanted(g: nat, a: Agent): Option<Section> {
    match a
    case Attempt(Holding) => Some(PublishWaiting(g))
    case Attempt(Prolonging) => Some(PublishProlonged(g))
    case Attempt(Serving) => Some(PublishHost(g))
    case Attempt(Failing) => Some(PublishFailed(g))
    case Retry(RetryFailing) => Some(PublishFailed(g))
    case _ => None
  }

  /** Where the agent goes on after a section that published, and after one refused because the agent is stale. */
  function AfterSection(a: Agent, published: bool): Agent {
    match a
    case Attempt(Holding) => Attempt(if published then Waiting else Done)
    case Attempt(Prolonging) => Attempt(Waiting)
    case Attempt(Serving) => Attempt(if published then Navigating else Refused)
    case Attempt(_) => Attempt(Done)
    case _ => Retry(RetryLeaving)
  }

  datatype SectionAction = Open | Close

  function SectionDo(s: State, g: nat, a: SectionAction): Option<State>
    requires g in s.agents
  {
    var wanted := Wanted(g, s.agents[g]);
    if wanted == None then None
    else if a == Open then
      if s.view.section != None then None
      else if Current(s, g) then Some(SetSection(s, wanted))
      else Some(SetAgent(s, g, AfterSection(s.agents[g], false)))
    else if s.view.section == wanted then Some(CloseSection(s, g, wanted.value))
    else None
  }

  /** The writes of an agent's section, and its release. */
  function CloseSection(s: State, g: nat, section: Section): State
    requires g in s.agents
  {
    var t := SetSection(SetAgent(s, g, AfterSection(s.agents[g], true)), None);
    match section
    case PublishWaiting(_) => Publish(t, WaitingForClient)
    case PublishProlonged(_) => if Awaiting(s.view.lifecycle) && Current(s, g) then Publish(t, ProlongedStartup) else t
    case PublishHost(_) =>
      if AliveInSlot(s, g) then Log(t.(view := t.view.(host := Some(g))), HostPublished(g))
      else SetSection(SetAgent(s, g, AfterSection(s.agents[g], false)), None)
    case _ => Publish(t.(view := ResetTokens(t.view), tasks := s.tasks + {ToStartup(g)}), Failed)
  }

  datatype RetryAction =
    | RetryEnter | RetryTake | RetryStopEnds(ok: bool) | RetryLower | RetryDecide | RetryRestart
    | RetryReturn | RetryLeave

  /** One step of retry worker `g` at `pc`. */
  function RetryDo(s: State, g: nat, pc: RetryPc, a: RetryAction): Option<State> {
    match a
    case RetryEnter =>
      if pc != RetryQueued || s.custody.lifecycleGate != None then None
      else Some(SetGate(SetRetry(s, g, RetryTaking), Some(g)))
    case RetryTake =>
      if pc != RetryTaking then None else Some(SetSlot(SetRetry(s, g, RetryStopping(s.custody.slot)), None))
    case RetryStopEnds(ok) =>
      if !pc.RetryStopping? then None
      else if pc.taken == None then (if ok then Some(SetRetry(s, g, RetryStopped)) else None)
      else if !ok then Some(SetRetry(s, g, RetryReturning(pc.taken.value)))
      else if !Exited(s, pc.taken.value) then None
      else Some(SetRetry(Confirm(s, pc.taken.value), g, RetryStopped))
    case RetryLower =>
      if pc != RetryStopped then None else Some(SetRetry(s, g, RetryDeciding).(retrying := false))
    case RetryDecide =>
      if pc != RetryDeciding then None
      else Some(SetRetry(s, g, if s.phase.shuttingDown then RetryLeaving else RetryRestarting))
    case RetryRestart =>
      if pc != RetryRestarting || !GatesFree(s) then None
      else Some(Bump(SetRetry(s, g, RetryLeaving), Attempt(Launched), Starting))
    case RetryReturn =>
      if !pc.RetryReturning? then None
      else Some(SetSlot(SetRetry(s, g, RetryFailing), Some(pc.pid)).(retrying := false))
    case RetryLeave =>
      if pc != RetryLeaving then None else Some(SetGate(SetRetry(s, g, RetryDone), None))
  }

  datatype ShutdownAction = ShutdownEnter | ShutdownTake | ShutdownStopEnds(ok: bool) | ShutdownLeave | ShutdownInstall

  /** One step of the shutdown worker. */
  function ShutdownDo(s: State, g: nat, pc: ShutdownPc, a: ShutdownAction): Option<State> {
    match a
    case ShutdownEnter =>
      if pc != ShutdownQueued || s.custody.lifecycleGate != None then None
      else Some(SetGate(SetShutdown(s, g, ShutdownTaking), Some(g)))
    case ShutdownTake =>
      if pc != ShutdownTaking then None else Some(SetSlot(SetShutdown(s, g, ShutdownStopping(s.custody.slot)), None))
    case ShutdownStopEnds(ok) =>
      if !pc.ShutdownStopping? then None
      else if pc.taken == None then (if ok then Some(SetShutdown(s, g, ShutdownStopped(true))) else None)
      else if !ok then
        Some(SetShutdown(s, g, ShutdownStopped(false)).(custody := s.custody.(lost := s.custody.lost + {pc.taken.value})))
      else if !Exited(s, pc.taken.value) then None
      else Some(SetShutdown(Confirm(s, pc.taken.value), g, ShutdownStopped(true)))
    case ShutdownLeave =>
      if !pc.ShutdownStopped? then None
      else Some(SetGate(SetShutdown(s, g, ShutdownReleased(pc.clean)), None))
    case ShutdownInstall =>
      if pc != ShutdownReleased(true) then None else Some(SetShutdown(s, g, ShutdownInstalling))
  }

  datatype Request = StartFirst | ClickRetry | EnterRetry | ClickShutdown | EnterShutdown

  /**
   Requests from windows, menus and signals. The checks made before a gate is taken may be stale when the request
   goes on, so they put no condition on these steps.
   */
  function RequestDo(s: State, r: Request): Option<State> {
    match r
    case StartFirst =>
      if s.phase.started || !GatesFree(s) then None
      else Some(Bump(s.(phase := s.phase.(started := true)), Attempt(Launched), Starting))
    case ClickRetry =>
      if s.retrying then None else Some(s.(retrying := true, retryPending := true))
    case EnterRetry =>
      if !s.retryPending || !GatesFree(s) then None
      else if RetryAllowed(s.view.lifecycle) then Some(Bump(s, Retry(RetryQueued), Stopping).(retryPending := false))
      else Some(s.(retryPending := false, retrying := false))
    case ClickShutdown =>
      if s.phase.shuttingDown then None else Some(s.(phase := s.phase.(shuttingDown := true, shutdownPending := true)))
    case EnterShutdown =>
      if !s.phase.shutdownPending || !GatesFree(s) then None
      else
        var phase := s.phase.(shutdownPending := false, shutdownAgent := Some(s.phase.generation + 1));
        var t := Log(s.(phase := phase), ShutdownEntered);
        Some(Bump(t, Shutdown(ShutdownQueued), Stopping))
  }

  datatype WebAction =
    | RunTask(task: Task) | CloseArm | CloseReset | Navigated(ok: bool)
    | OpenBegin(url: Url) | CloseBegin | OpenFinish(url: Url) | CloseFinish

  /** The section belongs to the navigation task that holds the navigation gate. */
  predicate OfTask(section: Section) {
    section.ArmNavigation? || section.ResetForStartup?
  }

  /**
   Main-thread navigation tasks and page-load events of the WebView. Once its own section is closed, a task navigates,
   and takes its tokens back if that fails, without the event gate: other sections may be open meanwhile.
   */
  function WebDo(s: State, w: WebAction): Option<State> {
    match w
    case RunTask(task) =>
      if task !in s.tasks || !GatesFree(s) then None
      else
        var t := s.(tasks := s.tasks - {task});
        var g := task.generation;
        if !Current(s, g) || (task.ToHost? && s.view.host != Some(g)) then Some(t)
        else
          var section := if task.ToHost? then ArmNavigation(g) else ResetForStartup(g);
          Some(t.(view := s.view.(navigationGate := Some(task), section := Some(section))))
    case CloseArm =>
      if s.view.section.None? || !s.view.section.value.ArmNavigation? then None
      else
        var g, v := s.view.section.value.generation, s.view.(section := None);
        if !AliveInSlot(s, g) then Some(s.(view := v.(navigationGate := None)))
        else
          var armed := v.(navigation := Some(g), navigationUrl := Some(HostPage(g)), load := None, loadUrl := None);
          Some(Log(s.(view := armed), NavigationArmed(g, HostPage(g))))
    case CloseReset =>
      if s.view.section.None? || !s.view.section.value.ResetForStartup? then None
      else Some(s.(view := ResetTokens(s.view).(section := None)))
    case Navigated(ok) =>
      if s.view.navigationGate.None? || (s.view.section.Some? && OfTask(s.view.section.value)) then None
      else if ok || s.view.navigationGate.value.ToStartup? then Some(s.(view := s.view.(navigationGate := None)))
      else Some(s.(view := s.view.(navigationGate := None, navigation := None, navigationUrl := None)))
    case OpenBegin(url) =>
      if s.view.section != None then None
      else if s.view.navigation == Some(s.phase.generation) && s.view.navigationUrl == Some(url) && !s.phase.shuttingDown then
        Some(SetSection(s, Some(BeginLoad(s.phase.generation, url))))
      else None
    case CloseBegin =>
      if s.view.section.None? || !s.view.section.value.BeginLoad? then None
      else
        var g, url, v := s.view.section.value.generation, s.view.section.value.url, s.view.(section := None);
        if !AliveInSlot(s, g) then Some(s.(view := v))
        else Some(Log(s.(view := v.(load := Some(g), loadUrl := Some(url))), LoadStarted(g, url)))
    case OpenFinish(url) =>
      if s.view.section != None then None
      else if s.view.host == Some(s.phase.generation) && s.view.load == Some(s.phase.generation) && s.view.loadUrl == Some(url)
              && Awaiting(s.view.lifecycle) && !s.phase.shuttingDown then
        Some(SetSection(s, Some(FinishLoad(s.phase.generation, url))))
      else None
    case CloseFinish =>
      if s.view.section.None? || !s.view.section.value.FinishLoad? then None
      else
        var g, url, v := s.view.section.value.generation, s.view.section.value.url, s.view.(section := None);
        if !AliveInSlot(s, g) then Some(s.(view := v))
        else
          var done := v.(navigation := None, navigationUrl := None, load := None, loadUrl := None);
          Some(Publish(Log(s.(view := done), LoadFinished(g, url)), Ready))
  }

  datatype Step =
    | SpawnStep(generation: nat, spawn: SpawnAction)
    | MoveStep(generation: nat, move: MoveAction)
    | StopStep(generation: nat, stop: StopAction)
    | SectionStep(generation: nat, action: SectionAction)
    | RetryStep(generation: nat, retry: RetryAction)
    | ShutdownStep(generation: nat, shutdown: ShutdownAction)
    | RequestStep(request: Request)
    | WebStep(web: WebAction)
    | LeaderExits(pid: nat)
    | TreeExits(pid: nat)

  function Do(s: State, step: Step): Option<State> {
    match step
    case SpawnStep(g, a) =>
      if g in s.agents && s.agents[g].Attempt? then SpawnDo(s, g, s.agents[g].attempt, a) else None
    case MoveStep(g, a) =>
      if g in s.agents && s.agents[g].Attempt? then MoveDo(s, g, s.agents[g].attempt, a) else None
    case StopStep(g, a) =>
      if g in s.agents && s.agents[g].Attempt? then StopDo(s, g, s.agents[g].attempt, a) else None
    case SectionStep(g, a) =>
      if g in s.agents then SectionDo(s, g, a) else None
    case RetryStep(g, a) =>
      if g in s.agents && s.agents[g].Retry? then RetryDo(s, g, s.agents[g].retry, a) else None
    case ShutdownStep(g, a) =>
      if g in s.agents && s.agents[g].Shutdown? then ShutdownDo(s, g, s.agents[g].shutdown, a) else None
    case RequestStep(r) => RequestDo(s, r)
    case WebStep(w) => WebDo(s, w)
    case LeaderExits(p) =>
      if p in s.custody.processes then Some(SetProcess(s, p, s.custody.processes[p].(leaderExited := true))) else None
    case TreeExits(p) =>
      if p in s.custody.processes then Some(SetProcess(s, p, s.custody.processes[p].(treeExited := true))) else None
  }

  /** The state after a run, if every step was enabled. */
  function Run(steps: seq<Step>): Option<State> {
    if steps == [] then Some(Init())
    else
      match Run(steps[..|steps| - 1])
      case None => None
      case Some(s) => Do(s, steps[|steps| - 1])
  }
}
