/** Safety of the host protocol over every run. */
module HostTheorems {
  import opened Bytes
  import opened HostProtocol
  import opened HostInvariant
  import opened HostSteps

  lemma InitOk()
    ensures Inv(Init())
  {
  }

  lemma {:induction false} RunKeeps(steps: seq<Step>)
    requires Run(steps).Some?
    ensures Inv(Run(steps).value)
  {
    hide Inv;
    if steps == [] {
      InitOk();
    } else {
      RunKeeps(steps[..|steps| - 1]);
      StepKeeps(Run(steps[..|steps| - 1]).value, steps[|steps| - 1], Run(steps).value);
    }
  }

  /**
   Whenever an attempt is about to call `spawn_cli`, in any run: every tree an earlier call returned has been confirmed
   exited and reaped by `stop_process`, the slot is empty, and this attempt has not spawned before.
   */
  lemma SpawnFindsNoLivingTree(steps: seq<Step>, s: State, g: nat)
    requires Run(steps) == Some(s) && g in s.agents && s.agents[g] == Attempt(Spawning)
    ensures forall p :: p in s.custody.processes ==> s.custody.processes[p].confirmed && Exited(s, p)
    ensures s.custody.slot == None && g !in s.custody.processes
  {
    RunKeeps(steps);
    assert AgentOk(s, g);
    forall p | p in s.custody.processes ensures s.custody.processes[p].confirmed && Exited(s, p) {
      assert ProcessOk(s, p);
      assert ConfirmedIn(s, p);
    }
  }

  /** The branch for an occupied slot is never taken. */
  lemma SlotIsNeverOccupied(steps: seq<Step>, s: State, g: nat)
    requires Run(steps) == Some(s) && g in s.agents
    ensures s.agents[g] != Attempt(Colliding)
    ensures s.agents[g] == Attempt(Rechecked) ==> s.custody.slot == None
  {
    RunKeeps(steps);
    assert AgentOk(s, g);
  }

  /** `install_staged` is called only when every tree is confirmed exited, or abandoned after its own stop failed. */
  lemma InstallFindsAllSettled(steps: seq<Step>, s: State, g: nat)
    requires Run(steps) == Some(s) && g in s.agents && s.agents[g] == Shutdown(ShutdownInstalling)
    ensures forall p :: p in s.custody.processes ==>
              (s.custody.processes[p].confirmed && Exited(s, p)) || s.custody.processes[p].abandoned
  {
    RunKeeps(steps);
    assert AgentOk(s, g);
    forall p | p in s.custody.processes
      ensures (s.custody.processes[p].confirmed && Exited(s, p)) || s.custody.processes[p].abandoned
    {
      assert ProcessOk(s, p);
      assert SettledIn(s, p);
    }
  }

  ghost predicate NoNewAbandoned(s: State, t: State) {
    forall p :: p in t.custody.processes && t.custody.processes[p].abandoned ==>
      p in s.custody.processes && s.custody.processes[p].abandoned
  }

  lemma SpawnAbandons(s: State, g: nat, pc: AttemptPc, a: SpawnAction, t: State)
    requires AtAttempt(s, g, pc) && SpawnDo(s, g, pc, a) == Some(t)
    ensures a != DiscardEnds(false) ==> NoNewAbandoned(s, t)
    ensures a == DiscardEnds(false) ==>
              pc == Discarding &&
              forall p :: p in t.custody.processes && t.custody.processes[p].abandoned && p != g ==>
                p in s.custody.processes && s.custody.processes[p].abandoned
  {
    match a
    case Enter => if Current(s, g) {} else {}
    case SpawnFails =>
    case Spawn =>
    case Recheck => if Current(s, g) {} else {}
    case Store => if s.custody.slot == None {} else {}
    case DiscardEnds(ok) => if ok {} else {}
    case CollideEnds(ok) => if ok {} else {}
  }

  lemma OthersDoNotAbandon(s: State, step: Step, t: State)
    requires !step.SpawnStep? && Do(s, step) == Some(t)
    ensures NoNewAbandoned(s, t)
  {
    match step
    case MoveStep(g, a) => hide Move;
    case StopStep(g, a) =>
      match a { case AbortEnds(ok) => if ok {} else {} case Clear => }
    case SectionStep(g, Open) => hide CloseSection;
    case SectionStep(g, Close) => CloseShape(s, g, Wanted(g, s.agents[g]).value, t); hide CloseSection;
    case RetryStep(g, a) => RetryDoesNotAbandon(s, g, s.agents[g].retry, a, t); hide RetryDo;
    case ShutdownStep(g, a) => ShutdownDoesNotAbandon(s, g, s.agents[g].shutdown, a, t); hide ShutdownDo;
    case RequestStep(r) => RequestLeavesCustody(s, r, t); hide RequestDo;
    case WebStep(w) => WebShape(s, w, t); hide WebDo;
    case LeaderExits(p) =>
    case TreeExits(p) =>
  }

  lemma RetryDoesNotAbandon(s: State, g: nat, pc: RetryPc, a: RetryAction, t: State)
    requires AtRetry(s, g, pc) && RetryDo(s, g, pc, a) == Some(t)
    ensures NoNewAbandoned(s, t)
  {
    match a
    case RetryEnter =>
    case RetryTake =>
    case RetryStopEnds(ok) => if pc.taken == None {} else if ok {} else {}
    case RetryLower =>
    case RetryDecide =>
    case RetryRestart =>
    case RetryReturn =>
    case RetryLeave =>
  }

  lemma ShutdownDoesNotAbandon(s: State, g: nat, pc: ShutdownPc, a: ShutdownAction, t: State)
    requires AtShutdown(s, g, pc) && ShutdownDo(s, g, pc, a) == Some(t)
    ensures NoNewAbandoned(s, t)
  {
    match a
    case ShutdownEnter =>
    case ShutdownTake =>
    case ShutdownStopEnds(ok) => if pc.taken == None {} else if ok {} else {}
    case ShutdownLeave =>
    case ShutdownInstall =>
  }

  lemma RequestLeavesCustody(s: State, r: Request, t: State)
    requires RequestDo(s, r) == Some(t)
    ensures t.custody == s.custody
  {
    match r
    case StartFirst =>
    case ClickRetry =>
    case EnterRetry => if RetryAllowed(s.view.lifecycle) {} else {}
    case ClickShutdown =>
    case EnterShutdown =>
  }

  /** A tree becomes abandoned only by the failed stop of the attempt that spawned it and lost a race with shutdown. */
  lemma AbandonedOnlyByDiscard(steps: seq<Step>, s: State, step: Step, t: State, p: nat)
    requires Run(steps) == Some(s) && Do(s, step) == Some(t)
    requires p in t.custody.processes && t.custody.processes[p].abandoned
    requires p in s.custody.processes ==> !s.custody.processes[p].abandoned
    ensures step == SpawnStep(p, DiscardEnds(false)) && s.phase.shuttingDown
  {
    hide Inv, Run;
    RunKeeps(steps);
    if step.SpawnStep? {
      SpawnAbandons(s, step.generation, s.agents[step.generation].attempt, step.spawn, t);
      DiscardingMeansShutdown(s, step.generation);
      hide SpawnDo;
    } else {
      OthersDoNotAbandon(s, step, t);
      hide Do;
    }
  }

  lemma DiscardingMeansShutdown(s: State, g: nat)
    requires Inv(s)
    ensures g in s.agents && s.agents[g] == Attempt(Discarding) ==> s.phase.shuttingDown
  {
    assert AgentOk(s, g);
  }

  /** Outside the bumps and sections, every observation token is empty or belongs to the current generation. */
  lemma TokensAreCurrent(steps: seq<Step>, s: State)
    requires Run(steps) == Some(s)
    ensures s.view.host.Some? ==> s.view.host == Some(s.phase.generation)
    ensures s.view.navigation.Some? ==> s.view.navigation == Some(s.phase.generation)
    ensures s.view.navigationUrl.Some? ==> s.view.navigationUrl == Some(HostPage(s.phase.generation))
    ensures s.view.load.Some? ==> s.view.load == Some(s.phase.generation)
    ensures s.view.loadUrl.Some? ==> s.view.loadUrl == Some(HostPage(s.phase.generation))
  {
    RunKeeps(steps);
  }
}
