/** What a step may change without disturbing the invariant of the agents and processes it does not touch. */
module HostFrames {
  import opened Bytes
  import opened HostProtocol
  import opened HostInvariant

  /** Agent `g` is not at a place from which it enters a section. */
  predicate Sectionless(s: State, g: nat) {
    g in s.agents && Wanted(g, s.agents[g]) == None
  }

  /** An agent goes from `a` to `b`; what its progress used to tell others, it still tells. */
  predicate Advances(a: Agent, b: Agent) {
    && (a.Attempt? <==> b.Attempt?) && (a.Retry? <==> b.Retry?)
    && (StillStarting(b) ==> StillStarting(a)) && (PastServing(a) ==> PastServing(b))
    && (b == Attempt(Launched) ==> a == b)
  }

  ghost predicate OnlyAgent(s: State, t: State, g: nat) {
    && g in s.agents && t.agents.Keys == s.agents.Keys
    && (forall n :: n in s.agents && n != g ==> t.agents[n] == s.agents[n])
    && Advances(s.agents[g], t.agents[g])
  }

  lemma ObservationFrame(s: State, t: State, g: nat)
    requires Observation(s) && PhaseOk(s) && t.view == s.view && t.phase == s.phase
    requires OnlyAgent(s, t, g) && Sectionless(s, g)
    ensures Observation(t) && PhaseOk(t)
  {
  }

  predicate FreshAttemptInGate(s: State) {
    GateHolderFills(s) && s.agents[s.custody.lifecycleGate.value].Attempt?
  }

  /** How the custody fields may change under a step of `g` as far as other agents are concerned. */
  ghost predicate CustodyStable(s: State, t: State, g: nat) {
    && (t.custody.lifecycleGate == s.custody.lifecycleGate
        || (s.custody.lifecycleGate == None && t.custody.lifecycleGate == Some(g))
        || (s.custody.lifecycleGate == Some(g) && t.custody.lifecycleGate == None))
    && (forall p :: p in s.custody.processes ==>
          && p in t.custody.processes
          && (ConfirmedIn(s, p) ==> ConfirmedIn(t, p)) && (SettledIn(s, p) ==> SettledIn(t, p)))
    && (forall p :: p in t.custody.processes && p !in s.custody.processes ==>
          p == g && s.custody.lifecycleGate == Some(g) && GateHolderFills(s))
    && (s.custody.slot == None && t.custody.slot != None ==> s.custody.lifecycleGate == Some(g) && GateHolderFills(s))
    && (t.custody.lost == s.custody.lost || (s.custody.lifecycleGate == Some(g) && s.phase.shutdownAgent == Some(g)))
    && (GateHolderFills(t) ==>
          || GateHolderFills(s) || s.custody.slot.Some?
          || (t.custody.lifecycleGate == Some(g) && g == s.phase.generation && !s.phase.shuttingDown))
  }

  /** How the phase may change: a new generation makes no attempt inside the gate stale, except in a shutdown. */
  predicate PhaseStable(s: State, t: State) {
    && s.phase.generation <= t.phase.generation
    && (s.phase.started ==> t.phase.started) && (s.phase.shuttingDown ==> t.phase.shuttingDown)
    && (t.phase.shutdownAgent == s.phase.shutdownAgent || s.phase.shutdownAgent == None)
    && (t.phase.generation == s.phase.generation || t.phase.shuttingDown || !FreshAttemptInGate(s))
  }

  lemma AgentFrame(s: State, t: State, g: nat, n: nat)
    requires AgentOk(s, n) && n != g && n in s.agents && n in t.agents && t.agents[n] == s.agents[n]
    requires PhaseOk(s) && CustodyStable(s, t, g) && PhaseStable(s, t)
    ensures AgentOk(t, n)
  {
    match s.agents[n]
    case Attempt(_) => AttemptFrame(s, t, g, n);
    case Retry(_) =>
    case Shutdown(_) => ShutdownFrame(s, t, g, n);
  }

  lemma AttemptFrame(s: State, t: State, g: nat, n: nat)
    requires AgentOk(s, n) && n != g && n in s.agents && n in t.agents && t.agents[n] == s.agents[n]
    requires s.agents[n].Attempt?
    requires CustodyStable(s, t, g) && PhaseStable(s, t)
    ensures AgentOk(t, n)
  {
  }

  lemma ShutdownFrame(s: State, t: State, g: nat, n: nat)
    requires AgentOk(s, n) && n != g && n in s.agents && n in t.agents && t.agents[n] == s.agents[n]
    requires s.agents[n].Shutdown? && PhaseOk(s)
    requires CustodyStable(s, t, g) && PhaseStable(s, t)
    ensures AgentOk(t, n)
  {
  }

  /** How the custody fields may change as far as the processes are concerned. */
  ghost predicate ProcessStable(s: State, t: State) {
    && s.phase.generation <= t.phase.generation && (s.phase.shuttingDown ==> t.phase.shuttingDown)
    && s.custody.lost <= t.custody.lost
    && (forall p :: p in t.custody.processes ==>
          && (p in s.custody.processes ==>
                && (t.custody.processes[p].abandoned ==> s.custody.processes[p].abandoned || t.phase.shuttingDown)
                && (t.custody.processes[p].confirmed ==>
                      Exited(t, p) || (s.custody.processes[p].confirmed && (Exited(s, p) ==> Exited(t, p))))
                && (SettledIn(s, p) ==> SettledIn(t, p)))
          && (p !in s.custody.processes ==>
                p <= t.phase.generation && CarriedNow(t) == Some(p) &&
                t.custody.processes[p] == Process(false, false, false, false)))
    && (s.custody.slot.Some? ==>
          t.custody.slot == s.custody.slot || SettledIn(t, s.custody.slot.value) || CarriedNow(t) == s.custody.slot)
    && (CarriedNow(s).Some? ==>
          || CarriedNow(t) == CarriedNow(s) || SettledIn(t, CarriedNow(s).value) || t.custody.slot == CarriedNow(s)
          || CarriedNow(s).value in t.custody.lost)
  }

  lemma ProcessFrame(s: State, t: State, p: nat)
    requires ProcessOk(s, p) && ProcessStable(s, t)
    ensures ProcessOk(t, p)
  {
  }

  /** A step of agent `g` keeps the invariant if it keeps what concerns `g` and the published state. */
  lemma AgentStepKeeps(s: State, t: State, g: nat)
    requires Inv(s) && OnlyAgent(s, t, g) && t.phase == s.phase
    requires CustodyStable(s, t, g) && ProcessStable(s, t)
    requires AgentOk(t, g) && Observation(t) && PhaseOk(t) && SlotOk(t)
    ensures Inv(t)
  {
    forall n ensures AgentOk(t, n) {
      if n != g && n in t.agents {
        assert AgentOk(s, n);
        AgentFrame(s, t, g, n);
      }
    }
    forall p ensures ProcessOk(t, p) {
      assert ProcessOk(s, p);
      ProcessFrame(s, t, p);
    }
  }

  /** A step of agent `g` that stays on its side of the lifecycle gate and touches neither slot nor processes. */
  predicate QuietMove(g: nat, a: Agent, b: Agent) {
    && Advances(a, b) && (HoldsGate(a) <==> HoldsGate(b)) && (Fills(b) ==> Fills(a)) && Carried(g, b) == Carried(g, a)
  }

  lemma QuietStepKeeps(s: State, t: State, g: nat)
    requires Inv(s) && OnlyAgent(s, t, g) && t.phase == s.phase && t.custody == s.custody
    requires QuietMove(g, s.agents[g], t.agents[g])
    requires AgentOk(t, g) && Observation(t) && PhaseOk(t)
    ensures Inv(t)
  {
    hide Observation, PhaseOk;
    assert AgentOk(s, g);
    QuietSlot(s, t, g);
    AgentStepKeeps(s, t, g);
  }

  lemma QuietSlot(s: State, t: State, g: nat)
    requires SlotOk(s) && OnlyAgent(s, t, g) && t.phase == s.phase && t.custody == s.custody
    requires QuietMove(g, s.agents[g], t.agents[g])
    ensures SlotOk(t) && CustodyStable(s, t, g) && ProcessStable(s, t)
  {
  }

  /** A step that is no agent's own: the agents stay where they are. */
  lemma OutsideStepKeeps(s: State, t: State)
    requires Inv(s) && t.agents == s.agents && CustodyStable(s, t, 0) && PhaseStable(s, t) && ProcessStable(s, t)
    requires Observation(t) && PhaseOk(t) && SlotOk(t)
    ensures Inv(t)
  {
    hide Observation, SlotOk, PhaseStable, CustodyStable, ProcessStable;
    forall n ensures AgentOk(t, n) {
      assert AgentOk(s, n);
      if n in t.agents {
        AgentFrame(s, t, 0, n);
      }
    }
    forall p ensures ProcessOk(t, p) {
      assert ProcessOk(s, p);
      ProcessFrame(s, t, p);
    }
  }

  /** What the three bumps have in common. */
  ghost predicate BumpedTo(s: State, t: State, g: nat, agent: Agent) {
    && g == s.phase.generation + 1 && t.phase.generation == g && t.agents == s.agents[g := agent]
    && t.custody == s.custody && GatesFree(s) && t.view.section == None
    && t.view.host == None && t.view.navigation == None && t.view.navigationUrl == None
    && t.view.load == None && t.view.loadUrl == None
    && !HoldsGate(agent) && !Fills(agent) && Carried(g, agent) == None
  }

  lemma BumpKeeps(s: State, t: State, g: nat, agent: Agent)
    requires Inv(s) && BumpedTo(s, t, g, agent) && PhaseStable(s, t)
    requires t.phase.shutdownAgent == None && StillStarting(agent) ==> t.view.lifecycle == Starting
    requires AgentOk(t, g) && PhaseOk(t) && SlotOk(t)
    ensures Inv(t)
  {
    hide AttemptOk, RetryOk, ShutdownAgentOk, PhaseOk, SlotOk;
    forall n ensures AgentOk(t, n) {
      assert AgentOk(s, n);
      if n != g && n in t.agents {
        AgentFrame(s, t, g, n);
      }
    }
    forall p ensures ProcessOk(t, p) {
      assert ProcessOk(s, p);
      ProcessFrame(s, t, p);
    }
  }
}
