/** The invariant of the host protocol, stated agent by agent and process by process. */
module HostInvariant {
  import opened Bytes
  import opened HostProtocol

  predicate HoldsGate(a: Agent) {
    match a
    case Attempt(pc) => pc == Spawning || pc == Spawned || pc == Rechecked || pc == Discarding || pc == Colliding
    case Retry(pc) => pc != RetryQueued && pc != RetryDone
    case Shutdown(pc) => pc == ShutdownTaking || pc.ShutdownStopping? || pc.ShutdownStopped?
  }

  /** A gate holder that may still put a process into the slot. */
  predicate Fills(a: Agent) {
    match a
    case Attempt(pc) => pc == Spawning || pc == Spawned || pc == Rechecked
    case Retry(pc) => (pc.RetryStopping? && pc.taken.Some?) || pc.RetryReturning?
    case Shutdown(_) => false
  }

  /** The process a gate holder of generation `n` keeps in a local variable. */
  function Carried(n: nat, a: Agent): Option<nat> {
    match a
    case Attempt(pc) => if pc == Spawned || pc == Rechecked || pc == Discarding || pc == Colliding then Some(n) else None
    case Retry(pc) =>
      if pc.RetryStopping? then pc.taken else if pc.RetryReturning? then Some(pc.pid) else None
    case Shutdown(pc) => if pc.ShutdownStopping? then pc.taken else None
  }

  function CarriedNow(s: State): Option<nat> {
    if s.custody.lifecycleGate.Some? && s.custody.lifecycleGate.value in s.agents then
      Carried(s.custody.lifecycleGate.value, s.agents[s.custody.lifecycleGate.value])
    else None
  }

  /** The attempt has not yet published anything but Starting. */
  predicate StillStarting(a: Agent) {
    a.Attempt? && (a.attempt == Launched || a.attempt == Holding || HoldsGate(a))
  }

  /** The attempt has been through the publication of its host origin, or has ended. */
  predicate PastServing(a: Agent) {
    a.Attempt? &&
    (a.attempt == Navigating || a.attempt == Watching || a.attempt == ExitFound || a.attempt == Aborting
     || a.attempt == Clearing || a.attempt == Failing || a.attempt == Done)
  }

  predicate GateHolderFills(s: State) {
    && s.custody.lifecycleGate.Some? && s.custody.lifecycleGate.value in s.agents
    && Fills(s.agents[s.custody.lifecycleGate.value])
  }

  predicate Ended(l: Lifecycle) {
    l == Starting || l == Stopping
  }

  predicate ConfirmedIn(s: State, p: nat) {
    p in s.custody.processes && s.custody.processes[p].confirmed
  }

  predicate SettledIn(s: State, p: nat) {
    p in s.custody.processes && (s.custody.processes[p].confirmed || s.custody.processes[p].abandoned)
  }

  /** Every process tree ever returned by `spawn_cli` has been confirmed exited and reaped. */
  ghost predicate AllConfirmed(s: State) {
    forall p :: p in s.custody.processes ==> ConfirmedIn(s, p)
  }

  /** The same, except for trees abandoned because their own stop failed. */
  ghost predicate AllSettled(s: State) {
    forall p :: p in s.custody.processes ==> SettledIn(s, p)
  }

  ghost predicate AttemptOk(s: State, n: nat, pc: AttemptPc) {
    && (pc == Launched || pc == Spawning ==> n !in s.custody.processes)
    && (pc != Launched && pc != Spawning && pc != Failing && pc != Done ==> n in s.custody.processes)
    && (pc == Spawning || pc == Spawned || pc == Rechecked ==>
          s.custody.slot == None && (s.phase.shuttingDown || n == s.phase.generation))
    && (pc == Discarding ==> s.phase.shuttingDown)
    && pc != Colliding
    && (pc == Clearing ==> ConfirmedIn(s, n))
    && (pc == Spawning ==> AllConfirmed(s) && s.custody.lost == {})
  }

  predicate RetryOk(s: State, n: nat, pc: RetryPc) {
    && (Carried(n, Retry(pc)).Some? ==> Carried(n, Retry(pc)).value in s.custody.processes)
    && (pc.RetryStopping? || pc == RetryStopped || pc == RetryDeciding || pc == RetryRestarting || pc.RetryReturning? ==>
          s.custody.slot == None)
  }

  ghost predicate ShutdownAgentOk(s: State, n: nat, pc: ShutdownPc) {
    && s.phase.shutdownAgent == Some(n)
    && (Carried(n, Shutdown(pc)).Some? ==> Carried(n, Shutdown(pc)).value in s.custody.processes)
    && (pc == ShutdownQueued || pc == ShutdownTaking || pc.ShutdownStopping? ==> s.custody.lost == {})
    && (pc != ShutdownQueued && pc != ShutdownTaking ==> s.custody.slot == None && !GateHolderFills(s))
    && (pc == ShutdownStopped(true) || pc == ShutdownReleased(true) || pc == ShutdownInstalling ==>
          AllSettled(s) && s.custody.lost == {})
  }

  ghost predicate AgentOk(s: State, n: nat) {
    n in s.agents ==>
      var a := s.agents[n];
      && 1 <= n <= s.phase.generation
      && (HoldsGate(a) <==> s.custody.lifecycleGate == Some(n))
      && (!s.phase.started ==> a.Shutdown?)
      && match a
         case Attempt(pc) => AttemptOk(s, n, pc)
         case Retry(pc) => RetryOk(s, n, pc)
         case Shutdown(pc) => ShutdownAgentOk(s, n, pc)
  }

  /** A tree is settled, in the slot, in the gate holder's hands, or given up by a failed shutdown. */
  predicate ProcessOk(s: State, p: nat) {
    p in s.custody.processes ==>
      && p <= s.phase.generation
      && (s.custody.processes[p].abandoned ==> s.phase.shuttingDown)
      && (s.custody.processes[p].confirmed ==> Exited(s, p))
      && (SettledIn(s, p) || s.custody.slot == Some(p) || p in s.custody.lost || CarriedNow(s) == Some(p))
  }

  predicate PhaseOk(s: State) {
    && (s.phase.generation > 0 ==> s.phase.generation in s.agents)
    && (s.phase.shutdownPending ==> s.phase.shuttingDown && s.phase.shutdownAgent == None)
    && (s.phase.shutdownAgent.Some? ==>
          && s.phase.shuttingDown && s.view.section == None && Ended(s.view.lifecycle)
          && s.phase.shutdownAgent.value in s.agents && s.agents[s.phase.shutdownAgent.value].Shutdown?)
    && (!s.phase.started ==> Ended(s.view.lifecycle) && s.view.host == None)
  }

  predicate SlotOk(s: State) {
    && (s.custody.lifecycleGate.Some? ==> s.custody.lifecycleGate.value in s.agents)
    && (s.custody.slot.Some? ==> s.custody.slot.value in s.custody.processes)
    && (!s.phase.started ==> s.custody.slot == None && s.custody.processes == map[])
    && (s.custody.lost != {} ==> s.phase.shutdownAgent.Some?)
    && (!s.phase.shuttingDown && s.phase.generation in s.agents && s.agents[s.phase.generation] == Attempt(Launched) ==>
          s.custody.slot == None && !GateHolderFills(s))
  }

  /** An open section belongs to the current generation, and its owner is where it opened the section. */
  predicate SectionOk(s: State) {
    s.view.section.Some? ==>
      var g := s.view.section.value.generation;
      && g == s.phase.generation
      && match s.view.section.value
         case ArmNavigation(_) => s.view.host == Some(g) && s.view.navigationGate == Some(ToHost(g))
         case ResetForStartup(_) => s.view.navigationGate == Some(ToStartup(g))
         case BeginLoad(_, url) => url == HostPage(g) && s.view.host == Some(g)
         case FinishLoad(_, url) => s.view.host == Some(g) && s.view.load == Some(g) && url == HostPage(g)
         case _ => g in s.agents && Wanted(g, s.agents[g]) == s.view.section
  }

  /** Every token is empty or belongs to the current generation. */
  predicate TokensOk(s: State) {
    && (s.view.host.Some? ==>
          s.view.host.value == s.phase.generation && s.phase.generation in s.agents && PastServing(s.agents[s.phase.generation]))
    && (s.view.navigation.Some? ==> s.view.navigation == s.view.host)
    && (s.view.navigationUrl.Some? ==> s.view.navigationUrl.value == HostPage(s.phase.generation))
    && (s.view.load.Some? ==> s.view.load == s.view.host)
    && (s.view.loadUrl.Some? ==> s.view.loadUrl.value == HostPage(s.phase.generation))
  }

  predicate LifecycleOk(s: State) {
    s.phase.shutdownAgent == None && s.phase.generation in s.agents && StillStarting(s.agents[s.phase.generation]) ==>
      s.view.lifecycle == Starting
  }

  predicate Observation(s: State) {
    SectionOk(s) && TokensOk(s) && LifecycleOk(s)
  }

  ghost predicate Inv(s: State) {
    && PhaseOk(s) && SlotOk(s) && Observation(s)
    && (forall n :: AgentOk(s, n))
    && (forall p :: ProcessOk(s, p))
  }
}
