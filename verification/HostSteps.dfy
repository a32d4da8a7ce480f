/** Every step of the host protocol keeps the invariant, kind of step by kind of step. */
module HostSteps {
  import opened Bytes
  import opened HostProtocol
  import opened HostInvariant
  import opened HostFrames

  ghost predicate AtAttempt(s: State, g: nat, pc: AttemptPc) {
    g in s.agents && s.agents[g] == Attempt(pc)
  }

  // ---- spawn_direct_cli ----

  lemma SpawnFields(s: State, g: nat, pc: AttemptPc, a: SpawnAction, t: State)
    requires AtAttempt(s, g, pc) && SpawnDo(s, g, pc, a) == Some(t)
    ensures t.phase == s.phase && t.view == s.view && Wanted(g, Attempt(pc)) == None
    ensures g in t.agents && t.agents == s.agents[g := t.agents[g]] && Advances(Attempt(pc), t.agents[g])
  {
    match a
    case Enter => if Current(s, g) {} else {}
    case SpawnFails =>
    case Spawn =>
    case Recheck => if Current(s, g) {} else {}
    case Store => if s.custody.slot == None {} else {}
    case DiscardEnds(ok) => if ok {} else {}
    case CollideEnds(ok) => if ok {} else {}
  }

  lemma SpawnShape(s: State, g: nat, pc: AttemptPc, a: SpawnAction, t: State)
    requires AtAttempt(s, g, pc) && SpawnDo(s, g, pc, a) == Some(t)
    ensures OnlyAgent(s, t, g) && t.phase == s.phase && t.view == s.view && Sectionless(s, g)
  {
    hide SpawnDo, Advances, Wanted;
    SpawnFields(s, g, pc, a, t);
  }

  lemma SpawnCreatesCustody(s: State, g: nat, t: State)
    requires AtAttempt(s, g, Spawning) && AgentOk(s, g) && SlotOk(s) && SpawnDo(s, g, Spawning, Spawn) == Some(t)
    ensures CustodyStable(s, t, g) && SlotOk(t)
  {
    hide RetryOk, ShutdownAgentOk;
  }

  lemma SpawnDiscardsCustody(s: State, g: nat, ok: bool, t: State)
    requires AtAttempt(s, g, Discarding) && AgentOk(s, g) && SlotOk(s)
    requires SpawnDo(s, g, Discarding, DiscardEnds(ok)) == Some(t)
    ensures CustodyStable(s, t, g) && SlotOk(t)
  {
    hide RetryOk, ShutdownAgentOk;
    if ok {} else {}
  }

  lemma SpawnTouchesCustody(s: State, g: nat, pc: AttemptPc, a: SpawnAction, t: State)
    requires AtAttempt(s, g, pc) && AgentOk(s, g) && SlotOk(s) && SpawnDo(s, g, pc, a) == Some(t)
    requires a.Spawn? || a.DiscardEnds? || a.CollideEnds?
    ensures CustodyStable(s, t, g) && SlotOk(t)
  {
    hide CustodyStable, SlotOk, RetryOk, ShutdownAgentOk;
    match a
    case Spawn => SpawnCreatesCustody(s, g, t);
    case DiscardEnds(ok) => SpawnDiscardsCustody(s, g, ok, t);
    case CollideEnds(ok) =>
  }

  lemma SpawnCustody(s: State, g: nat, pc: AttemptPc, a: SpawnAction, t: State)
    requires AtAttempt(s, g, pc) && AgentOk(s, g) && SlotOk(s) && SpawnDo(s, g, pc, a) == Some(t)
    ensures CustodyStable(s, t, g) && SlotOk(t)
  {
    hide RetryOk, ShutdownAgentOk;
    match a
    case Enter => if Current(s, g) {} else {}
    case SpawnFails =>
    case Recheck => if Current(s, g) {} else {}
    case Store => if s.custody.slot == None {} else {}
    case _ =>
      hide SpawnDo, AgentOk, SlotOk, CustodyStable;
      SpawnTouchesCustody(s, g, pc, a, t);
  }

  lemma SpawnCreates(s: State, g: nat, t: State)
    requires AtAttempt(s, g, Spawning) && AgentOk(s, g) && SlotOk(s) && SpawnDo(s, g, Spawning, Spawn) == Some(t)
    ensures ProcessStable(s, t)
  {
    hide RetryOk, ShutdownAgentOk;
  }

  lemma SpawnDiscards(s: State, g: nat, ok: bool, t: State)
    requires AtAttempt(s, g, Discarding) && AgentOk(s, g) && SlotOk(s)
    requires SpawnDo(s, g, Discarding, DiscardEnds(ok)) == Some(t)
    ensures ProcessStable(s, t)
  {
    hide RetryOk, ShutdownAgentOk;
    if ok {} else {}
  }

  /** The steps that confirm, abandon or create a tree. */
  lemma SpawnTouches(s: State, g: nat, pc: AttemptPc, a: SpawnAction, t: State)
    requires AtAttempt(s, g, pc) && AgentOk(s, g) && SlotOk(s) && SpawnDo(s, g, pc, a) == Some(t)
    requires a.Spawn? || a.DiscardEnds? || a.CollideEnds?
    ensures ProcessStable(s, t)
  {
    hide ProcessStable, SlotOk, RetryOk, ShutdownAgentOk;
    match a
    case Spawn => SpawnCreates(s, g, t);
    case DiscardEnds(ok) => SpawnDiscards(s, g, ok, t);
    case CollideEnds(ok) =>
  }

  lemma SpawnProcesses(s: State, g: nat, pc: AttemptPc, a: SpawnAction, t: State)
    requires AtAttempt(s, g, pc) && AgentOk(s, g) && SlotOk(s) && SpawnDo(s, g, pc, a) == Some(t)
    ensures ProcessStable(s, t)
  {
    hide RetryOk, ShutdownAgentOk;
    match a
    case Enter => if Current(s, g) {} else {}
    case SpawnFails =>
    case Recheck => if Current(s, g) {} else {}
    case Store => if s.custody.slot == None {} else {}
    case _ =>
      hide SpawnDo, AgentOk, SlotOk, ProcessStable;
      SpawnTouches(s, g, pc, a, t);
  }

  lemma SpawnAgent(s: State, g: nat, pc: AttemptPc, a: SpawnAction, t: State)
    requires AtAttempt(s, g, pc) && AgentOk(s, g) && SlotOk(s) && SpawnDo(s, g, pc, a) == Some(t)
    requires a == Enter && Current(s, g) ==> AllConfirmed(s) && s.custody.lost == {}
    ensures AgentOk(t, g)
  {
    match a
    case Enter => if Current(s, g) {} else {}
    case SpawnFails =>
    case Spawn =>
    case Recheck => if Current(s, g) {} else {}
    case Store => if s.custody.slot == None {} else {}
    case DiscardEnds(ok) => if ok {} else {}
    case CollideEnds(ok) => if ok {} else {}
  }

  /** An attempt that finds the gate free and itself current finds every earlier tree confirmed. */
  lemma EnteringFindsAllConfirmed(s: State, g: nat)
    requires Inv(s) && AtAttempt(s, g, Launched) && s.custody.lifecycleGate == None && Current(s, g)
    ensures AllConfirmed(s) && s.custody.lost == {} && s.custody.slot == None
  {
    hide AgentOk, Observation;
    forall p | p in s.custody.processes ensures ConfirmedIn(s, p) {
      assert ProcessOk(s, p);
    }
  }

  lemma SpawnKeeps(s: State, g: nat, pc: AttemptPc, a: SpawnAction, t: State)
    requires Inv(s) && AtAttempt(s, g, pc) && SpawnDo(s, g, pc, a) == Some(t)
    ensures Inv(t)
  {
    hide ProcessOk, Observation, PhaseOk, SlotOk, AttemptOk, OnlyAgent, CustodyStable, ProcessStable, AllConfirmed;
    assert AgentOk(s, g);
    if a == Enter && Current(s, g) {
      EnteringFindsAllConfirmed(s, g);
    }
    SpawnShape(s, g, pc, a, t);
    SpawnCustody(s, g, pc, a, t);
    SpawnProcesses(s, g, pc, a, t);
    SpawnAgent(s, g, pc, a, t);
    ObservationFrame(s, t, g);
    AgentStepKeeps(s, t, g);
  }

  // ---- moves outside the gates ----

  lemma MoveShape(s: State, g: nat, pc: AttemptPc, a: MoveAction, next: AttemptPc)
    requires Move(s, g, pc, a) == Some(next)
    ensures QuietMove(g, Attempt(pc), Attempt(next)) && Wanted(g, Attempt(pc)) == None
  {
    hide Current;
    match a
    case Cancel =>
    case SeeExit =>
    case ProbeError =>
    case Probe =>
    case Prolong =>
    case ConfirmReady =>
    case AfterRefusal =>
    case Queue =>
    case Dismiss =>
    case Abort =>
  }

  lemma MoveAgent(s: State, t: State, g: nat, pc: AttemptPc, a: MoveAction, next: AttemptPc)
    requires AtAttempt(s, g, pc) && AtAttempt(t, g, next) && Move(s, g, pc, a) == Some(next) && AgentOk(s, g)
    requires t.custody == s.custody && t.phase == s.phase
    ensures AgentOk(t, g)
  {
  }

  lemma MoveKeeps(s: State, g: nat, pc: AttemptPc, a: MoveAction, t: State)
    requires Inv(s) && AtAttempt(s, g, pc) && MoveDo(s, g, pc, a) == Some(t)
    ensures Inv(t)
  {
    hide Move, AttemptOk;
    var next := Move(s, g, pc, a).value;
    assert AgentOk(s, g);
    MoveShape(s, g, pc, a, next);
    MoveAgent(s, t, g, pc, a, next);
    ObservationFrame(s, t, g);
    QuietStepKeeps(s, t, g);
  }

  // ---- abort_attempt ----

  lemma StopShape(s: State, g: nat, pc: AttemptPc, a: StopAction, t: State)
    requires AtAttempt(s, g, pc) && StopDo(s, g, pc, a) == Some(t)
    ensures OnlyAgent(s, t, g) && t.phase == s.phase && t.view == s.view && Sectionless(s, g)
  {
    match a
    case AbortEnds(ok) => if ok {} else {}
    case Clear => if s.custody.slot == Some(g) {} else {}
  }

  lemma StopCustody(s: State, g: nat, pc: AttemptPc, a: StopAction, t: State)
    requires AtAttempt(s, g, pc) && AgentOk(s, g) && SlotOk(s) && StopDo(s, g, pc, a) == Some(t)
    ensures CustodyStable(s, t, g)
  {
    match a
    case AbortEnds(ok) => if ok {} else {}
    case Clear => if s.custody.slot == Some(g) {} else {}
  }

  lemma AbortProcesses(s: State, g: nat, ok: bool, t: State)
    requires AtAttempt(s, g, Aborting) && AgentOk(s, g) && SlotOk(s) && StopDo(s, g, Aborting, AbortEnds(ok)) == Some(t)
    ensures ProcessStable(s, t)
  {
    hide RetryOk, ShutdownAgentOk;
    if ok {} else {}
  }

  lemma StopProcesses(s: State, g: nat, pc: AttemptPc, a: StopAction, t: State)
    requires AtAttempt(s, g, pc) && AgentOk(s, g) && SlotOk(s) && StopDo(s, g, pc, a) == Some(t)
    ensures ProcessStable(s, t)
  {
    hide RetryOk, ShutdownAgentOk;
    match a
    case AbortEnds(ok) =>
      hide AgentOk, SlotOk, ProcessStable;
      AbortProcesses(s, g, ok, t);
    case Clear => if s.custody.slot == Some(g) {} else {}
  }

  lemma StopSlot(s: State, g: nat, pc: AttemptPc, a: StopAction, t: State)
    requires AtAttempt(s, g, pc) && AgentOk(s, g) && SlotOk(s) && StopDo(s, g, pc, a) == Some(t)
    ensures SlotOk(t)
  {
    hide RetryOk, ShutdownAgentOk;
    match a
    case AbortEnds(ok) => if ok {} else {}
    case Clear => if s.custody.slot == Some(g) {} else {}
  }

  lemma StopAgent(s: State, g: nat, pc: AttemptPc, a: StopAction, t: State)
    requires AtAttempt(s, g, pc) && AgentOk(s, g) && SlotOk(s) && StopDo(s, g, pc, a) == Some(t)
    ensures AgentOk(t, g)
  {
    hide RetryOk, ShutdownAgentOk;
    match a
    case AbortEnds(ok) => if ok {} else {}
    case Clear => if s.custody.slot == Some(g) {} else {}
  }

  lemma StopKeeps(s: State, g: nat, pc: AttemptPc, a: StopAction, t: State)
    requires Inv(s) && AtAttempt(s, g, pc) && StopDo(s, g, pc, a) == Some(t)
    ensures Inv(t)
  {
    hide ProcessOk, Observation, PhaseOk, SlotOk, AttemptOk, OnlyAgent, CustodyStable, ProcessStable;
    assert AgentOk(s, g);
    StopShape(s, g, pc, a, t);
    StopCustody(s, g, pc, a, t);
    StopProcesses(s, g, pc, a, t);
    StopSlot(s, g, pc, a, t);
    StopAgent(s, g, pc, a, t);
    ObservationFrame(s, t, g);
    AgentStepKeeps(s, t, g);
  }

  // ---- event-gate sections of agents ----

  lemma OpenKeeps(s: State, g: nat, t: State)
    requires Inv(s) && g in s.agents && SectionDo(s, g, Open) == Some(t)
    ensures Inv(t)
  {
    hide ProcessOk, Observation, PhaseOk, SlotOk, AttemptOk, RetryOk, OnlyAgent, CloseSection;
    assert AgentOk(s, g);
    OpenShape(s, g, t);
    OpenObservation(s, g, t);
    QuietStepKeeps(s, t, g);
  }

  lemma OpenFields(s: State, g: nat, t: State)
    requires g in s.agents && SectionDo(s, g, Open) == Some(t)
    ensures t.phase == s.phase && t.custody == s.custody
    ensures t.agents == s.agents || (Wanted(g, s.agents[g]).Some? && t.agents == s.agents[g := AfterSection(s.agents[g], false)])
  {
    hide CloseSection, AfterSection, Wanted;
    if Current(s, g) {} else {}
  }

  lemma OpenObservation(s: State, g: nat, t: State)
    requires g in s.agents && PhaseOk(s) && Observation(s) && SectionDo(s, g, Open) == Some(t)
    ensures Observation(t) && PhaseOk(t)
  {
    hide CloseSection;
    if Current(s, g) {} else {}
  }

  lemma CloseFields(s: State, g: nat, section: Section, t: State)
    requires g in s.agents && Wanted(g, s.agents[g]) == Some(section) && t == CloseSection(s, g, section)
    ensures t.phase == s.phase && t.custody == s.custody
    ensures t.agents == s.agents[g := AfterSection(s.agents[g], true)] ||
            t.agents == s.agents[g := AfterSection(s.agents[g], false)]
  {
    hide ResetTokens, AfterSection, AliveInSlot, Awaiting, Current;
    match section
    case PublishWaiting(_) =>
    case PublishProlonged(_) => if Awaiting(s.view.lifecycle) && Current(s, g) {} else {}
    case PublishHost(_) => if AliveInSlot(s, g) {} else {}
    case _ =>
  }

  lemma AfterSectionAdvances(g: nat, a: Agent, published: bool)
    requires Wanted(g, a).Some?
    ensures Advances(a, AfterSection(a, published))
  {
  }

  /** What every way of closing a section does to its agent. */
  lemma CloseShape(s: State, g: nat, section: Section, t: State)
    requires g in s.agents && Wanted(g, s.agents[g]) == Some(section) && t == CloseSection(s, g, section)
    ensures OnlyAgent(s, t, g) && t.phase == s.phase && t.custody == s.custody
    ensures g in t.agents
    ensures t.agents[g] == AfterSection(s.agents[g], true) || t.agents[g] == AfterSection(s.agents[g], false)
  {
    hide CloseSection, AfterSection, Advances, Wanted;
    CloseFields(s, g, section, t);
    AfterSectionAdvances(g, s.agents[g], true);
    AfterSectionAdvances(g, s.agents[g], false);
  }

  lemma AfterSectionMoves(g: nat, a: Agent, published: bool)
    requires Wanted(g, a).Some?
    ensures QuietMove(g, a, AfterSection(a, published))
  {
  }

  lemma CloseAgent(s: State, g: nat, section: Section, t: State)
    requires g in s.agents && AgentOk(s, g) && Wanted(g, s.agents[g]) == Some(section)
    requires g in t.agents && t.phase == s.phase && t.custody == s.custody
    requires t.agents[g] == AfterSection(s.agents[g], true) || t.agents[g] == AfterSection(s.agents[g], false)
    ensures AgentOk(t, g)
  {
  }

  /** An agent whose section opened waits where it is. */
  lemma Unmoved(s: State, g: nat, t: State)
    requires g in s.agents && AgentOk(s, g)
    requires t.agents == s.agents && t.phase == s.phase && t.custody == s.custody
    ensures OnlyAgent(s, t, g) && QuietMove(g, s.agents[g], t.agents[g]) && AgentOk(t, g)
  {
  }

  lemma OpenShape(s: State, g: nat, t: State)
    requires g in s.agents && AgentOk(s, g) && SectionDo(s, g, Open) == Some(t)
    ensures OnlyAgent(s, t, g) && t.phase == s.phase && t.custody == s.custody
    ensures QuietMove(g, s.agents[g], t.agents[g]) && AgentOk(t, g)
  {
    hide SectionDo, AfterSection, Advances, QuietMove, AgentOk, Wanted;
    OpenFields(s, g, t);
    if t.agents == s.agents {
      hide OnlyAgent;
      Unmoved(s, g, t);
    } else {
      AfterSectionAdvances(g, s.agents[g], false);
      AfterSectionMoves(g, s.agents[g], false);
      CloseAgent(s, g, Wanted(g, s.agents[g]).value, t);
    }
  }

  lemma WaitingSection(s: State, g: nat, t: State)
    requires g in s.agents && PhaseOk(s) && Observation(s) && s.view.section == Some(PublishWaiting(g))
    requires Wanted(g, s.agents[g]) == Some(PublishWaiting(g)) && t == CloseSection(s, g, PublishWaiting(g))
    ensures SectionOk(t)
  {
    hide ResetTokens, AliveInSlot, TokensOk, LifecycleOk;
  }

  lemma WaitingTokens(s: State, g: nat, t: State)
    requires g in s.agents && PhaseOk(s) && Observation(s) && s.view.section == Some(PublishWaiting(g))
    requires Wanted(g, s.agents[g]) == Some(PublishWaiting(g)) && t == CloseSection(s, g, PublishWaiting(g))
    ensures TokensOk(t)
  {
    hide ResetTokens, AliveInSlot, LifecycleOk;
  }

  lemma WaitingLifecycle(s: State, g: nat, t: State)
    requires g in s.agents && PhaseOk(s) && Observation(s) && s.view.section == Some(PublishWaiting(g))
    requires Wanted(g, s.agents[g]) == Some(PublishWaiting(g)) && t == CloseSection(s, g, PublishWaiting(g))
    ensures LifecycleOk(t)
  {
    hide ResetTokens, AliveInSlot, TokensOk;
  }

  lemma CloseWaitingObservation(s: State, g: nat, t: State)
    requires g in s.agents && PhaseOk(s) && Observation(s) && s.view.section == Some(PublishWaiting(g))
    requires Wanted(g, s.agents[g]) == Some(PublishWaiting(g)) && t == CloseSection(s, g, PublishWaiting(g))
    ensures Observation(t)
  {
    hide CloseSection, SectionOk, TokensOk, LifecycleOk;
    WaitingSection(s, g, t);
    WaitingTokens(s, g, t);
    WaitingLifecycle(s, g, t);
  }

  lemma ProlongedSection(s: State, g: nat, t: State)
    requires g in s.agents && PhaseOk(s) && Observation(s) && s.view.section == Some(PublishProlonged(g))
    requires Wanted(g, s.agents[g]) == Some(PublishProlonged(g)) && t == CloseSection(s, g, PublishProlonged(g))
    ensures SectionOk(t)
  {
    hide ResetTokens, AliveInSlot, TokensOk, LifecycleOk;
    if Awaiting(s.view.lifecycle) && Current(s, g) {} else {}
  }

  lemma ProlongedTokens(s: State, g: nat, t: State)
    requires g in s.agents && PhaseOk(s) && Observation(s) && s.view.section == Some(PublishProlonged(g))
    requires Wanted(g, s.agents[g]) == Some(PublishProlonged(g)) && t == CloseSection(s, g, PublishProlonged(g))
    ensures TokensOk(t)
  {
    hide ResetTokens, AliveInSlot, LifecycleOk;
    if Awaiting(s.view.lifecycle) && Current(s, g) {} else {}
  }

  lemma ProlongedLifecycle(s: State, g: nat, t: State)
    requires g in s.agents && PhaseOk(s) && Observation(s) && s.view.section == Some(PublishProlonged(g))
    requires Wanted(g, s.agents[g]) == Some(PublishProlonged(g)) && t == CloseSection(s, g, PublishProlonged(g))
    ensures LifecycleOk(t)
  {
    hide ResetTokens, AliveInSlot, TokensOk;
    if Awaiting(s.view.lifecycle) && Current(s, g) {} else {}
  }

  lemma CloseProlongedObservation(s: State, g: nat, t: State)
    requires g in s.agents && PhaseOk(s) && Observation(s) && s.view.section == Some(PublishProlonged(g))
    requires Wanted(g, s.agents[g]) == Some(PublishProlonged(g)) && t == CloseSection(s, g, PublishProlonged(g))
    ensures Observation(t)
  {
    hide CloseSection, SectionOk, TokensOk, LifecycleOk;
    ProlongedSection(s, g, t);
    ProlongedTokens(s, g, t);
    ProlongedLifecycle(s, g, t);
  }

  lemma CloseObservation(s: State, g: nat, section: Section, t: State)
    requires g in s.agents && PhaseOk(s) && Observation(s) && s.view.section == Some(section)
    requires Wanted(g, s.agents[g]) == Some(section) && t == CloseSection(s, g, section)
    ensures Observation(t)
  {
    hide CloseSection, Observation, PhaseOk;
    match section
    case PublishWaiting(_) => CloseWaitingObservation(s, g, t);
    case PublishProlonged(_) => CloseProlongedObservation(s, g, t);
    case PublishHost(_) => CloseHostObservation(s, g, t);
    case _ => CloseFailedObservation(s, g, t);
  }

  lemma CloseFailedObservation(s: State, g: nat, t: State)
    requires g in s.agents && PhaseOk(s) && Observation(s) && s.view.section == Some(PublishFailed(g))
    requires Wanted(g, s.agents[g]) == Some(PublishFailed(g)) && t == CloseSection(s, g, PublishFailed(g))
    ensures Observation(t)
  {
    hide AliveInSlot;
  }

  lemma CloseHostObservation(s: State, g: nat, t: State)
    requires g in s.agents && PhaseOk(s) && Observation(s) && s.view.section == Some(PublishHost(g))
    requires s.agents[g] == Attempt(Serving) && t == CloseSection(s, g, PublishHost(g))
    ensures Observation(t)
  {
    if AliveInSlot(s, g) {} else {}
  }

  lemma ClosePhase(s: State, g: nat, section: Section, t: State)
    requires PhaseOk(s) && SectionOk(s) && AgentOk(s, g) && s.view.section == Some(section)
    requires OnlyAgent(s, t, g) && t.phase == s.phase && Wanted(g, s.agents[g]) == Some(section)
    ensures PhaseOk(t)
  {
  }

  lemma CloseKeeps(s: State, g: nat, t: State)
    requires Inv(s) && g in s.agents && SectionDo(s, g, Close) == Some(t)
    ensures Inv(t)
  {
    hide ProcessOk, Observation, PhaseOk, SlotOk, AttemptOk, RetryOk, OnlyAgent, CloseSection, AfterSection, QuietMove;
    var section := Wanted(g, s.agents[g]).value;
    assert AgentOk(s, g);
    CloseShape(s, g, section, t);
    CloseAgent(s, g, section, t);
    AfterSectionMoves(g, s.agents[g], true);
    AfterSectionMoves(g, s.agents[g], false);
    CloseObservation(s, g, section, t);
    ObservationHasSection(s);
    ClosePhase(s, g, section, t);
    QuietStepKeeps(s, t, g);
  }

  lemma ObservationHasSection(s: State)
    requires Observation(s)
    ensures SectionOk(s)
  {
  }

  lemma SectionKeeps(s: State, g: nat, a: SectionAction, t: State)
    requires Inv(s) && g in s.agents && SectionDo(s, g, a) == Some(t)
    ensures Inv(t)
  {
    hide Inv, SectionDo;
    match a
    case Open => OpenKeeps(s, g, t);
    case Close => CloseKeeps(s, g, t);
  }

  // ---- retry worker ----

  ghost predicate AtRetry(s: State, g: nat, pc: RetryPc) {
    g in s.agents && s.agents[g] == Retry(pc)
  }

  lemma RetryShape(s: State, g: nat, pc: RetryPc, a: RetryAction, t: State)
    requires AtRetry(s, g, pc) && a != RetryRestart && RetryDo(s, g, pc, a) == Some(t)
    ensures OnlyAgent(s, t, g) && t.phase == s.phase && t.view == s.view && Sectionless(s, g)
  {
    match a
    case RetryEnter =>
    case RetryTake =>
    case RetryStopEnds(ok) => if pc.taken == None {} else if ok {} else {}
    case RetryLower =>
    case RetryDecide => if s.phase.shuttingDown {} else {}
    case RetryReturn =>
    case RetryLeave =>
  }

  lemma RetryStopCustody(s: State, g: nat, pc: RetryPc, ok: bool, t: State)
    requires AtRetry(s, g, pc) && AgentOk(s, g) && SlotOk(s)
    requires RetryDo(s, g, pc, RetryStopEnds(ok)) == Some(t)
    ensures CustodyStable(s, t, g) && SlotOk(t)
  {
    hide Bump, AttemptOk, ShutdownAgentOk;
    if pc.taken == None {} else if ok {} else {}
  }

  lemma RetryCustody(s: State, g: nat, pc: RetryPc, a: RetryAction, t: State)
    requires AtRetry(s, g, pc) && AgentOk(s, g) && SlotOk(s)
    requires a != RetryRestart && RetryDo(s, g, pc, a) == Some(t)
    ensures CustodyStable(s, t, g) && SlotOk(t)
  {
    hide Bump, AttemptOk, ShutdownAgentOk;
    match a
    case RetryEnter =>
    case RetryTake =>
    case RetryStopEnds(ok) =>
      hide RetryDo, AgentOk, SlotOk, CustodyStable;
      RetryStopCustody(s, g, pc, ok, t);
    case RetryLower =>
    case RetryDecide => if s.phase.shuttingDown {} else {}
    case RetryReturn =>
    case RetryLeave =>
  }

  lemma RetryStopProcesses(s: State, g: nat, pc: RetryPc, ok: bool, t: State)
    requires AtRetry(s, g, pc) && AgentOk(s, g) && SlotOk(s)
    requires RetryDo(s, g, pc, RetryStopEnds(ok)) == Some(t)
    ensures ProcessStable(s, t)
  {
    hide Bump, AttemptOk, ShutdownAgentOk;
    if pc.taken == None {} else if ok {} else {}
  }

  lemma RetryProcesses(s: State, g: nat, pc: RetryPc, a: RetryAction, t: State)
    requires AtRetry(s, g, pc) && AgentOk(s, g) && SlotOk(s)
    requires a != RetryRestart && RetryDo(s, g, pc, a) == Some(t)
    ensures ProcessStable(s, t)
  {
    hide Bump, AttemptOk, ShutdownAgentOk;
    match a
    case RetryEnter =>
    case RetryTake =>
    case RetryStopEnds(ok) =>
      hide RetryDo, AgentOk, SlotOk, ProcessStable;
      RetryStopProcesses(s, g, pc, ok, t);
    case RetryLower =>
    case RetryDecide => if s.phase.shuttingDown {} else {}
    case RetryReturn =>
    case RetryLeave =>
  }

  lemma RetryAgent(s: State, g: nat, pc: RetryPc, a: RetryAction, t: State)
    requires AtRetry(s, g, pc) && AgentOk(s, g) && SlotOk(s)
    requires a != RetryRestart && RetryDo(s, g, pc, a) == Some(t)
    ensures AgentOk(t, g)
  {
    hide Bump;
    match a
    case RetryEnter =>
    case RetryTake =>
    case RetryStopEnds(ok) => if pc.taken == None {} else if ok {} else {}
    case RetryLower =>
    case RetryDecide => if s.phase.shuttingDown {} else {}
    case RetryReturn =>
    case RetryLeave =>
  }

  /** The restart is a quiet move of the worker followed by a bump. */
  lemma RestartKeeps(s: State, g: nat, t: State)
    requires Inv(s) && AtRetry(s, g, RetryRestarting) && RetryDo(s, g, RetryRestarting, RetryRestart) == Some(t)
    ensures Inv(t)
  {
    hide ProcessOk, Observation, PhaseOk, SlotOk, OnlyAgent, CustodyStable, ProcessStable, PhaseStable, BumpedTo;
    var u := SetRetry(s, g, RetryLeaving);
    assert AgentOk(s, g);
    LeavingMove(s, g, u);
    ObservationFrame(s, u, g);
    QuietStepKeeps(s, u, g);
    RestartBump(u, g, t, s.phase.generation + 1);
    BumpKeeps(u, t, s.phase.generation + 1, Attempt(Launched));
  }

  lemma LeavingMove(s: State, g: nat, u: State)
    requires AtRetry(s, g, RetryRestarting) && AgentOk(s, g) && u == SetRetry(s, g, RetryLeaving)
    ensures OnlyAgent(s, u, g) && u.phase == s.phase && u.view == s.view && u.custody == s.custody && Sectionless(s, g)
    ensures QuietMove(g, s.agents[g], u.agents[g]) && AgentOk(u, g) && s.custody.slot == None && s.phase.started
  {
  }

  lemma RestartBump(u: State, g: nat, t: State, n: nat)
    requires Inv(u) && AtRetry(u, g, RetryLeaving) && u.custody.slot == None && u.phase.started && GatesFree(u)
    requires t == Bump(u, Attempt(Launched), Starting) && n == u.phase.generation + 1
    ensures BumpedTo(u, t, n, Attempt(Launched)) && PhaseStable(u, t) && t.view.lifecycle == Starting
    ensures AgentOk(t, n) && PhaseOk(t) && SlotOk(t)
  {
    assert AgentOk(u, g) && AgentOk(u, n);
    assert ProcessOk(u, n);
  }

  lemma RetryKeeps(s: State, g: nat, pc: RetryPc, a: RetryAction, t: State)
    requires Inv(s) && AtRetry(s, g, pc) && RetryDo(s, g, pc, a) == Some(t)
    ensures Inv(t)
  {
    hide ProcessOk, Observation, PhaseOk, SlotOk, RetryOk, OnlyAgent, CustodyStable, ProcessStable, Bump;
    assert AgentOk(s, g);
    if a == RetryRestart {
      RestartKeeps(s, g, t);
    } else {
      RetryShape(s, g, pc, a, t);
      RetryCustody(s, g, pc, a, t);
      RetryProcesses(s, g, pc, a, t);
      RetryAgent(s, g, pc, a, t);
      ObservationFrame(s, t, g);
      AgentStepKeeps(s, t, g);
    }
  }

  // ---- shutdown worker ----

  ghost predicate AtShutdown(s: State, g: nat, pc: ShutdownPc) {
    g in s.agents && s.agents[g] == Shutdown(pc)
  }

  lemma ShutdownShape(s: State, g: nat, pc: ShutdownPc, a: ShutdownAction, t: State)
    requires AtShutdown(s, g, pc) && ShutdownDo(s, g, pc, a) == Some(t)
    ensures OnlyAgent(s, t, g) && t.phase == s.phase && t.view == s.view && Sectionless(s, g)
  {
    match a
    case ShutdownEnter =>
    case ShutdownTake =>
    case ShutdownStopEnds(ok) => if pc.taken == None {} else if ok {} else {}
    case ShutdownLeave =>
    case ShutdownInstall =>
  }

  lemma ShutdownStopCustody(s: State, g: nat, pc: ShutdownPc, ok: bool, t: State)
    requires AtShutdown(s, g, pc) && AgentOk(s, g) && SlotOk(s) && ShutdownDo(s, g, pc, ShutdownStopEnds(ok)) == Some(t)
    ensures CustodyStable(s, t, g) && SlotOk(t)
  {
    hide AttemptOk, RetryOk;
    if pc.taken == None {} else if ok {} else {}
  }

  lemma ShutdownCustody(s: State, g: nat, pc: ShutdownPc, a: ShutdownAction, t: State)
    requires AtShutdown(s, g, pc) && AgentOk(s, g) && SlotOk(s) && ShutdownDo(s, g, pc, a) == Some(t)
    ensures CustodyStable(s, t, g) && SlotOk(t)
  {
    hide AttemptOk, RetryOk;
    match a
    case ShutdownEnter =>
    case ShutdownTake =>
    case ShutdownStopEnds(ok) =>
      hide ShutdownDo, AgentOk, SlotOk, CustodyStable;
      ShutdownStopCustody(s, g, pc, ok, t);
    case ShutdownLeave =>
    case ShutdownInstall =>
  }

  lemma ShutdownStopProcesses(s: State, g: nat, pc: ShutdownPc, ok: bool, t: State)
    requires AtShutdown(s, g, pc) && AgentOk(s, g) && SlotOk(s) && ShutdownDo(s, g, pc, ShutdownStopEnds(ok)) == Some(t)
    ensures ProcessStable(s, t)
  {
    hide AttemptOk, RetryOk;
    if pc.taken == None {} else if ok {} else {}
  }

  lemma ShutdownProcesses(s: State, g: nat, pc: ShutdownPc, a: ShutdownAction, t: State)
    requires AtShutdown(s, g, pc) && AgentOk(s, g) && SlotOk(s) && ShutdownDo(s, g, pc, a) == Some(t)
    ensures ProcessStable(s, t)
  {
    hide AttemptOk, RetryOk;
    match a
    case ShutdownEnter =>
    case ShutdownTake =>
    case ShutdownStopEnds(ok) =>
      hide ShutdownDo, AgentOk, SlotOk, ProcessStable;
      ShutdownStopProcesses(s, g, pc, ok, t);
    case ShutdownLeave =>
    case ShutdownInstall =>
  }

  /** When the shutdown worker has stopped what it took, no other tree is left unsettled. */
  lemma ShutdownSettles(s: State, g: nat, taken: Option<nat>)
    requires Inv(s) && AtShutdown(s, g, ShutdownStopping(taken))
    ensures forall p :: p in s.custody.processes && taken != Some(p) ==> SettledIn(s, p)
  {
    assert AgentOk(s, g);
    forall p | p in s.custody.processes && taken != Some(p) ensures SettledIn(s, p) {
      assert ProcessOk(s, p);
    }
  }

  lemma ShutdownAgent(s: State, g: nat, pc: ShutdownPc, a: ShutdownAction, t: State)
    requires AtShutdown(s, g, pc) && AgentOk(s, g) && SlotOk(s) && ShutdownDo(s, g, pc, a) == Some(t)
    requires pc.ShutdownStopping? ==> forall p :: p in s.custody.processes && pc.taken != Some(p) ==> SettledIn(s, p)
    ensures AgentOk(t, g)
  {
    match a
    case ShutdownEnter =>
    case ShutdownTake =>
    case ShutdownStopEnds(ok) => if pc.taken == None {} else if ok {} else {}
    case ShutdownLeave =>
    case ShutdownInstall =>
  }

  lemma ShutdownKeeps(s: State, g: nat, pc: ShutdownPc, a: ShutdownAction, t: State)
    requires Inv(s) && AtShutdown(s, g, pc) && ShutdownDo(s, g, pc, a) == Some(t)
    ensures Inv(t)
  {
    hide ProcessOk, Observation, PhaseOk, SlotOk, ShutdownAgentOk, OnlyAgent, CustodyStable, ProcessStable;
    assert AgentOk(s, g);
    if pc.ShutdownStopping? {
      ShutdownSettles(s, g, pc.taken);
    }
    ShutdownShape(s, g, pc, a, t);
    ShutdownCustody(s, g, pc, a, t);
    ShutdownProcesses(s, g, pc, a, t);
    ShutdownAgent(s, g, pc, a, t);
    ObservationFrame(s, t, g);
    AgentStepKeeps(s, t, g);
  }

  // ---- requests ----

  lemma StartFirstKeeps(s: State, t: State)
    requires Inv(s) && RequestDo(s, StartFirst) == Some(t)
    ensures Inv(t)
  {
    var g := s.phase.generation + 1;
    assert AgentOk(s, g) && ProcessOk(s, g);
    if s.custody.lifecycleGate.Some? {
      assert AgentOk(s, s.custody.lifecycleGate.value);
    }
    BumpKeeps(s, t, g, Attempt(Launched));
  }

  lemma EnterRetryKeeps(s: State, t: State)
    requires Inv(s) && RequestDo(s, EnterRetry) == Some(t) && RetryAllowed(s.view.lifecycle)
    ensures Inv(t)
  {
    var g := s.phase.generation + 1;
    assert AgentOk(s, g);
    if s.custody.lifecycleGate.Some? {
      assert AgentOk(s, s.custody.lifecycleGate.value);
    }
    BumpKeeps(s, t, g, Retry(RetryQueued));
  }

  lemma EnterShutdownKeeps(s: State, t: State)
    requires Inv(s) && RequestDo(s, EnterShutdown) == Some(t)
    ensures Inv(t)
  {
    var g := s.phase.generation + 1;
    assert AgentOk(s, g);
    BumpKeeps(s, t, g, Shutdown(ShutdownQueued));
  }

  /** Clicks, and a retry that came too late, touch neither agents nor processes. */
  lemma ClickKeeps(s: State, r: Request, t: State)
    requires Inv(s) && RequestDo(s, r) == Some(t)
    requires r == ClickRetry || r == ClickShutdown || (r == EnterRetry && !RetryAllowed(s.view.lifecycle))
    ensures Inv(t)
  {
    hide AgentOk, ProcessOk;
    match r
    case ClickRetry => OutsideStepKeeps(s, t);
    case EnterRetry => OutsideStepKeeps(s, t);
    case ClickShutdown => OutsideStepKeeps(s, t);
  }

  lemma RequestKeeps(s: State, r: Request, t: State)
    requires Inv(s) && RequestDo(s, r) == Some(t)
    ensures Inv(t)
  {
    hide Inv, RequestDo;
    match r
    case StartFirst => StartFirstKeeps(s, t);
    case EnterRetry => if RetryAllowed(s.view.lifecycle) { EnterRetryKeeps(s, t); } else { ClickKeeps(s, r, t); }
    case EnterShutdown => EnterShutdownKeeps(s, t);
    case _ => ClickKeeps(s, r, t);
  }

  // ---- WebView and environment ----

  lemma WebClosing(s: State, w: WebAction, t: State)
    requires Observation(s) && PhaseOk(s) && WebDo(s, w) == Some(t)
    requires w.CloseArm? || w.CloseBegin? || w.CloseFinish?
    ensures Observation(t) && PhaseOk(t)
  {
    match w
    case CloseArm => if AliveInSlot(s, s.view.section.value.generation) {} else {}
    case CloseBegin => if AliveInSlot(s, s.view.section.value.generation) {} else {}
    case CloseFinish => if AliveInSlot(s, s.view.section.value.generation) {} else {}
  }

  lemma WebRuns(s: State, task: Task, t: State)
    requires Observation(s) && PhaseOk(s) && WebDo(s, RunTask(task)) == Some(t)
    ensures Observation(t) && PhaseOk(t)
  {
    if !Current(s, task.generation) {} else if task.ToHost? {} else {}
  }

  lemma NavigatedSection(s: State, ok: bool, t: State)
    requires SectionOk(s) && WebDo(s, Navigated(ok)) == Some(t)
    ensures SectionOk(t)
  {
    if ok {} else {}
  }

  lemma NavigatedTokens(s: State, ok: bool, t: State)
    requires TokensOk(s) && WebDo(s, Navigated(ok)) == Some(t)
    ensures TokensOk(t)
  {
    if ok {} else {}
  }

  lemma NavigatedRest(s: State, ok: bool, t: State)
    requires LifecycleOk(s) && PhaseOk(s) && WebDo(s, Navigated(ok)) == Some(t)
    ensures LifecycleOk(t) && PhaseOk(t)
  {
    if ok {} else {}
  }

  lemma WebNavigates(s: State, ok: bool, t: State)
    requires Observation(s) && PhaseOk(s) && WebDo(s, Navigated(ok)) == Some(t)
    ensures Observation(t) && PhaseOk(t)
  {
    hide WebDo, SectionOk, TokensOk, LifecycleOk, PhaseOk;
    NavigatedSection(s, ok, t);
    NavigatedTokens(s, ok, t);
    NavigatedRest(s, ok, t);
  }

  lemma WebOpening(s: State, w: WebAction, t: State)
    requires Observation(s) && PhaseOk(s) && WebDo(s, w) == Some(t)
    requires w.CloseReset? || w.OpenBegin? || w.OpenFinish?
    ensures Observation(t) && PhaseOk(t)
  {
    match w
    case CloseReset =>
    case OpenBegin(url) =>
    case OpenFinish(url) =>
  }

  lemma WebObservation(s: State, w: WebAction, t: State)
    requires Observation(s) && PhaseOk(s) && WebDo(s, w) == Some(t)
    ensures Observation(t) && PhaseOk(t)
  {
    hide WebDo, Observation, PhaseOk;
    match w
    case RunTask(task) => WebRuns(s, task, t);
    case Navigated(ok) => WebNavigates(s, ok, t);
    case CloseReset => WebOpening(s, w, t);
    case OpenBegin(_) => WebOpening(s, w, t);
    case OpenFinish(_) => WebOpening(s, w, t);
    case _ => WebClosing(s, w, t);
  }

  lemma WebShape(s: State, w: WebAction, t: State)
    requires WebDo(s, w) == Some(t)
    ensures t.agents == s.agents && t.phase == s.phase && t.custody == s.custody
  {
    match w
    case RunTask(task) => if !Current(s, task.generation) {} else if task.ToHost? {} else {}
    case CloseArm => if AliveInSlot(s, s.view.section.value.generation) {} else {}
    case CloseReset =>
    case Navigated(ok) => if ok {} else {}
    case OpenBegin(url) =>
    case CloseBegin => if AliveInSlot(s, s.view.section.value.generation) {} else {}
    case OpenFinish(url) =>
    case CloseFinish => if AliveInSlot(s, s.view.section.value.generation) {} else {}
  }

  lemma WebKeeps(s: State, w: WebAction, t: State)
    requires Inv(s) && WebDo(s, w) == Some(t)
    ensures Inv(t)
  {
    hide WebDo;
    WebObservation(s, w, t);
    WebShape(s, w, t);
    OutsideStepKeeps(s, t);
  }

  lemma ExitKeeps(s: State, p: nat, leader: bool, t: State)
    requires Inv(s) && Do(s, if leader then LeaderExits(p) else TreeExits(p)) == Some(t)
    ensures Inv(t)
  {
    hide AgentOk, Observation;
    ExitCustody(s, p, leader, t);
    ExitProcesses(s, p, leader, t);
    ExitObservation(s, t);
    OutsideStepKeeps(s, t);
  }

  lemma ExitCustody(s: State, p: nat, leader: bool, t: State)
    requires SlotOk(s) && Do(s, if leader then LeaderExits(p) else TreeExits(p)) == Some(t)
    ensures t.agents == s.agents && t.phase == s.phase && t.view == s.view
    ensures CustodyStable(s, t, 0) && SlotOk(t)
  {
    if leader {} else {}
  }

  lemma ExitProcesses(s: State, p: nat, leader: bool, t: State)
    requires Do(s, if leader then LeaderExits(p) else TreeExits(p)) == Some(t)
    ensures ProcessStable(s, t)
  {
    if leader {} else {}
  }

  lemma ExitObservation(s: State, t: State)
    requires Observation(s) && PhaseOk(s) && t.agents == s.agents && t.phase == s.phase && t.view == s.view
    ensures Observation(t) && PhaseOk(t)
  {
  }

  /** The invariant is kept by every step. */
  lemma StepKeeps(s: State, step: Step, t: State)
    requires Inv(s) && Do(s, step) == Some(t)
    ensures Inv(t)
  {
    hide Inv;
    match step
    case SpawnStep(g, a) => SpawnKeeps(s, g, s.agents[g].attempt, a, t);
    case MoveStep(g, a) => MoveKeeps(s, g, s.agents[g].attempt, a, t);
    case StopStep(g, a) => StopKeeps(s, g, s.agents[g].attempt, a, t);
    case SectionStep(g, a) => SectionKeeps(s, g, a, t);
    case RetryStep(g, a) => RetryKeeps(s, g, s.agents[g].retry, a, t);
    case ShutdownStep(g, a) => ShutdownKeeps(s, g, s.agents[g].shutdown, a, t);
    case RequestStep(r) => RequestKeeps(s, r, t);
    case WebStep(w) => WebKeeps(s, w, t);
    case LeaderExits(p) => ExitKeeps(s, p, true, t);
    case TreeExits(p) => ExitKeeps(s, p, false, t);
  }
}
