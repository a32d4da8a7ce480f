/** Trees whose stop failed silently are never stopped later (src-tauri/src/main.rs:1102-1105, 1331-1364, 1585-1604). */
module HostAbandoned {
  import opened Bytes
  import opened HostProtocol
  import opened HostInvariant
  import opened HostSteps
  import opened HostTheorems

  predicate Over(a: Agent) {
    a == Attempt(Failing) || a == Attempt(Done)
  }

  predicate JustSpawned(a: Agent) {
    a == Attempt(Spawned) || a == Attempt(Discarding)
  }

  /**
   An abandoned tree is out of everybody's reach: its attempt is over and nobody holds it. A tree whose attempt has not
   stored it yet is in its attempt's hands only.
   */
  ghost predicate OutOfReach(s: State, p: nat) {
    p in s.custody.processes ==>
      && (s.custody.processes[p].abandoned ==>
            && !s.custody.processes[p].confirmed && s.custody.slot != Some(p) && CarriedNow(s) != Some(p)
            && p in s.agents && Over(s.agents[p]))
      && (p in s.agents && JustSpawned(s.agents[p]) ==> !s.custody.processes[p].confirmed && s.custody.slot != Some(p))
  }

  // ---------- Steps that leave the custody alone ----------

  /** The agents change only in ways that neither end nor begin anybody's hold on a tree. */
  ghost predicate SameHold(s: State, t: State, p: nat) {
    && t.custody == s.custody && CarriedNow(t) == CarriedNow(s)
    && (p in s.agents && Over(s.agents[p]) ==> p in t.agents && Over(t.agents[p]))
    && (p in s.custody.processes && p in t.agents && JustSpawned(t.agents[p]) ==> p in s.agents && JustSpawned(s.agents[p]))
  }

  lemma HoldKept(s: State, t: State, p: nat)
    requires OutOfReach(s, p) && SameHold(s, t, p)
    ensures OutOfReach(t, p)
  {
  }

  lemma MoveHold(s: State, g: nat, a: MoveAction, t: State, p: nat)
    requires g in s.agents && s.agents[g].Attempt? && MoveDo(s, g, s.agents[g].attempt, a) == Some(t)
    ensures SameHold(s, t, p)
  {
    match a
    case AfterRefusal => if Current(s, g) {} else {}
    case _ =>
  }

  lemma AfterSectionHold(s: State, g: nat, published: bool, t: State, p: nat)
    requires g in s.agents && Wanted(g, s.agents[g]).Some? && t.custody == s.custody
    requires t.agents == s.agents[g := AfterSection(s.agents[g], published)]
    ensures SameHold(s, t, p)
  {
  }

  lemma SectionHold(s: State, g: nat, a: SectionAction, t: State, p: nat)
    requires g in s.agents && SectionDo(s, g, a) == Some(t)
    ensures SameHold(s, t, p)
  {
    hide SameHold, AfterSection;
    match a
    case Open =>
      OpenFields(s, g, t);
      hide SectionDo;
      if t.agents == s.agents {
        NothingHeld(s, t, p);
      } else {
        AfterSectionHold(s, g, false, t, p);
      }
    case Close =>
      CloseFields(s, g, Wanted(g, s.agents[g]).value, t);
      hide CloseSection;
      if t.agents == s.agents[g := AfterSection(s.agents[g], true)] {
        AfterSectionHold(s, g, true, t, p);
      } else {
        AfterSectionHold(s, g, false, t, p);
      }
  }

  lemma BumpHold(s: State, agent: Agent, t: State, p: nat)
    requires s.phase.generation + 1 !in s.agents && (p in s.custody.processes ==> p <= s.phase.generation)
    requires s.custody.lifecycleGate.Some? ==> s.custody.lifecycleGate.value in s.agents
    requires t.custody == s.custody && !JustSpawned(agent) && t.agents == s.agents[s.phase.generation + 1 := agent]
    ensures SameHold(s, t, p)
  {
  }

  lemma NumbersAreFresh(s: State, p: nat)
    requires Inv(s)
    ensures s.phase.generation + 1 !in s.agents && (p in s.custody.processes ==> p <= s.phase.generation)
    ensures s.custody.lifecycleGate.Some? ==> s.custody.lifecycleGate.value in s.agents
  {
    assert AgentOk(s, s.phase.generation + 1) && ProcessOk(s, p);
  }

  lemma NothingHeld(s: State, t: State, p: nat)
    requires t.custody == s.custody && t.agents == s.agents
    ensures SameHold(s, t, p)
  {
  }

  lemma RequestHold(s: State, r: Request, t: State, p: nat)
    requires Inv(s) && RequestDo(s, r) == Some(t)
    ensures SameHold(s, t, p)
  {
    NumbersAreFresh(s, p);
    hide Inv, SameHold;
    match r
    case StartFirst => BumpHold(s, Attempt(Launched), t, p);
    case ClickRetry => NothingHeld(s, t, p);
    case EnterRetry =>
      if RetryAllowed(s.view.lifecycle) { BumpHold(s, Retry(RetryQueued), t, p); } else { NothingHeld(s, t, p); }
    case ClickShutdown => NothingHeld(s, t, p);
    case EnterShutdown => BumpHold(s, Shutdown(ShutdownQueued), t, p);
  }

  // ---------- Steps that change the custody ----------

  lemma SpawnReach(s: State, g: nat, pc: AttemptPc, a: SpawnAction, t: State, p: nat)
    requires AtAttempt(s, g, pc) && AgentOk(s, g) && SlotOk(s) && OutOfReach(s, p) && SpawnDo(s, g, pc, a) == Some(t)
    ensures OutOfReach(t, p)
  {
    hide RetryOk, ShutdownAgentOk;
    match a
    case Enter => if Current(s, g) {} else {}
    case SpawnFails =>
    case Spawn =>
    case Recheck => if Current(s, g) {} else {}
    case Store => if s.custody.slot == None {} else {}
    case DiscardEnds(ok) => if ok {} else {}
    case CollideEnds(ok) =>
  }

  lemma StopReach(s: State, g: nat, pc: AttemptPc, a: StopAction, t: State, p: nat)
    requires AtAttempt(s, g, pc) && AgentOk(s, g) && OutOfReach(s, p) && StopDo(s, g, pc, a) == Some(t)
    ensures OutOfReach(t, p)
  {
    hide AttemptOk, RetryOk, ShutdownAgentOk;
    match a
    case AbortEnds(ok) => if ok {} else {}
    case Clear => if s.custody.slot == Some(g) {} else {}
  }

  /** Only the holder of the gate holds a tree, and an attempt that holds the gate is not a worker. */
  lemma RetryReach(s: State, g: nat, pc: RetryPc, a: RetryAction, t: State, p: nat)
    requires AtRetry(s, g, pc) && AgentOk(s, g) && (p in s.agents ==> AgentOk(s, p)) && OutOfReach(s, p)
    requires a != RetryRestart && RetryDo(s, g, pc, a) == Some(t)
    ensures OutOfReach(t, p)
  {
    hide Bump, AttemptOk, ShutdownAgentOk;
    match a
    case RetryEnter =>
    case RetryTake =>
    case RetryStopEnds(ok) => if pc.taken == None {} else if ok {} else {}
    case RetryLower =>
    case RetryDecide =>
    case RetryReturn =>
    case RetryLeave =>
  }

  lemma LeavingHold(s: State, g: nat, p: nat)
    requires AtRetry(s, g, RetryRestarting)
    ensures SameHold(s, SetRetry(s, g, RetryLeaving), p)
  {
  }

  lemma HoldsChain(s: State, u: State, t: State, p: nat)
    requires SameHold(s, u, p) && SameHold(u, t, p)
    ensures SameHold(s, t, p)
  {
  }

  lemma RestartHold(s: State, g: nat, t: State, p: nat)
    requires Inv(s) && AtRetry(s, g, RetryRestarting) && RetryDo(s, g, RetryRestarting, RetryRestart) == Some(t)
    ensures SameHold(s, t, p)
  {
    NumbersAreFresh(s, p);
    hide Inv, SameHold;
    var u := SetRetry(s, g, RetryLeaving);
    LeavingHold(s, g, p);
    BumpHold(u, Attempt(Launched), t, p);
    HoldsChain(s, u, t, p);
  }

  lemma ShutdownReach(s: State, g: nat, pc: ShutdownPc, a: ShutdownAction, t: State, p: nat)
    requires AtShutdown(s, g, pc) && AgentOk(s, g) && (p in s.agents ==> AgentOk(s, p)) && OutOfReach(s, p)
    requires ShutdownDo(s, g, pc, a) == Some(t)
    ensures OutOfReach(t, p)
  {
    hide AttemptOk, RetryOk;
    match a
    case ShutdownEnter =>
    case ShutdownTake =>
    case ShutdownStopEnds(ok) => if pc.taken == None {} else if ok {} else {}
    case ShutdownLeave =>
    case ShutdownInstall =>
  }

  lemma StepReach(s: State, step: Step, t: State, p: nat)
    requires Inv(s) && OutOfReach(s, p) && Do(s, step) == Some(t)
    ensures OutOfReach(t, p)
  {
    hide Inv, OutOfReach, SpawnDo, MoveDo, StopDo, SectionDo, RetryDo, ShutdownDo, RequestDo, WebDo;
    InvOk(s, p);
    match step
    case SpawnStep(g, a) => InvOk(s, g); SpawnReach(s, g, s.agents[g].attempt, a, t, p);
    case MoveStep(g, a) => MoveHold(s, g, a, t, p); HoldKept(s, t, p);
    case StopStep(g, a) => InvOk(s, g); StopReach(s, g, s.agents[g].attempt, a, t, p);
    case SectionStep(g, a) => SectionHold(s, g, a, t, p); HoldKept(s, t, p);
    case RetryStep(g, a) =>
      InvOk(s, g);
      if a == RetryRestart {
        RestartsFrom(s, g, s.agents[g].retry, t);
        RestartHold(s, g, t, p);
        HoldKept(s, t, p);
      } else {
        RetryReach(s, g, s.agents[g].retry, a, t, p);
      }
    case ShutdownStep(g, a) => InvOk(s, g); ShutdownReach(s, g, s.agents[g].shutdown, a, t, p);
    case RequestStep(r) => RequestHold(s, r, t, p); HoldKept(s, t, p);
    case WebStep(w) => WebShape(s, w, t); NothingHeld(s, t, p); HoldKept(s, t, p);
    case LeaderExits(_) => ExitReach(s, step, t, p);
    case TreeExits(_) => ExitReach(s, step, t, p);
  }

  lemma RestartsFrom(s: State, g: nat, pc: RetryPc, t: State)
    requires g in s.agents && RetryDo(s, g, pc, RetryRestart) == Some(t)
    ensures pc == RetryRestarting
  {
  }

  lemma ExitReach(s: State, step: Step, t: State, p: nat)
    requires (step.LeaderExits? || step.TreeExits?) && OutOfReach(s, p) && Do(s, step) == Some(t)
    ensures OutOfReach(t, p)
  {
  }

  lemma InvOk(s: State, n: nat)
    requires Inv(s)
    ensures AgentOk(s, n) && ProcessOk(s, n) && SlotOk(s) && PhaseOk(s)
  {
  }

  lemma {:induction false} RunReach(steps: seq<Step>, p: nat)
    requires Run(steps).Some?
    ensures OutOfReach(Run(steps).value, p)
  {
    hide Inv, Do;
    if steps != [] {
      var before := steps[..|steps| - 1];
      RunKeeps(before);
      RunReach(before, p);
      hide OutOfReach;
      StepReach(Run(before).value, steps[|steps| - 1], Run(steps).value, p);
    }
  }

  /** No tree is both abandoned and confirmed, in any run: once its own stop has failed silently, nobody stops it again. */
  lemma AbandonedIsNeverConfirmed(steps: seq<Step>, s: State, p: nat)
    requires Run(steps) == Some(s) && p in s.custody.processes && s.custody.processes[p].abandoned
    ensures !s.custody.processes[p].confirmed
  {
    RunReach(steps, p);
  }

  /** When `install_staged` is called, all trees are confirmed exited exactly when none has been abandoned. */
  lemma InstallFindsAllConfirmedExactly(steps: seq<Step>, s: State, g: nat)
    requires Run(steps) == Some(s) && g in s.agents && s.agents[g] == Shutdown(ShutdownInstalling)
    ensures (forall p :: p in s.custody.processes ==> s.custody.processes[p].confirmed && Exited(s, p)) <==>
            (forall p :: p in s.custody.processes ==> !s.custody.processes[p].abandoned)
  {
    hide Run;
    InstallFindsAllSettled(steps, s, g);
    forall p | p in s.custody.processes && s.custody.processes[p].abandoned
      ensures !s.custody.processes[p].confirmed
    {
      AbandonedIsNeverConfirmed(steps, s, p);
    }
  }
}
