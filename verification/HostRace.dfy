/** When Starting can still be published although shutdown is under way (src-tauri/src/main.rs:1513-1615, 1662-1692). */
module HostRace {
  import opened Bytes
  import opened HostProtocol
  import opened HostInvariant
  import opened HostTheorems
  import opened HostHistory
  import HostSteps

  /** The first start is still to come, or a retry worker has read the shutdown flag before it was raised. */
  ghost predicate MayStart(s: State) {
    !s.phase.started || exists g :: g in s.agents && s.agents[g] == Retry(RetryRestarting)
  }

  /** Starting is published at or after `from`, behind the entry of shutdown. */
  ghost predicate StartsAfterShutdown(log: seq<Event>, from: nat) {
    exists i, j :: 0 <= i < j < |log| && from <= j && log[i] == ShutdownEntered && log[j] == Published(Starting)
  }

  // ---------- Once raised, the flag lets no new worker through ----------

  /** What a step does to the agents, as far as restarting workers are concerned. */
  ghost predicate NoNewRestart(s: State, t: State) {
    forall g :: g in t.agents && t.agents[g] == Retry(RetryRestarting) ==>
                  g in s.agents && s.agents[g] == Retry(RetryRestarting)
  }

  lemma RetryMakesNoRestart(s: State, g: nat, pc: RetryPc, a: RetryAction, t: State)
    requires g in s.agents && s.agents[g] == Retry(pc) && RetryDo(s, g, pc, a) == Some(t) && s.phase.shuttingDown
    ensures NoNewRestart(s, t) && t.phase.shuttingDown && t.phase.started == s.phase.started
  {
    match a
    case RetryEnter =>
    case RetryTake =>
    case RetryStopEnds(ok) => if pc.taken == None {} else if ok {} else {}
    case RetryLower =>
    case RetryDecide =>
    case RetryRestart =>
    case RetryReturn =>
    case RetryLeave =>
  }

  lemma OthersMakeNoRestart(s: State, step: Step, t: State)
    requires Do(s, step) == Some(t) && !step.RetryStep? && s.phase.shuttingDown
    ensures NoNewRestart(s, t) && t.phase.shuttingDown && (s.phase.started ==> t.phase.started)
  {
    match step
    case SpawnStep(g, a) => HostSteps.SpawnFields(s, g, s.agents[g].attempt, a, t); hide SpawnDo;
    case MoveStep(g, a) => hide Move;
    case StopStep(g, a) => StopMakesNoRestart(s, g, a, t); hide StopDo;
    case SectionStep(g, a) => SectionMakesNoRestart(s, g, a, t); hide SectionDo;
    case ShutdownStep(g, a) => ShutdownMakesNoRestart(s, g, a, t); hide ShutdownDo;
    case RequestStep(r) => RequestMakesNoRestart(s, r, t); hide RequestDo;
    case WebStep(w) => HostSteps.WebShape(s, w, t); hide WebDo;
    case LeaderExits(p) =>
    case TreeExits(p) =>
  }

  lemma StopMakesNoRestart(s: State, g: nat, a: StopAction, t: State)
    requires g in s.agents && s.agents[g].Attempt? && StopDo(s, g, s.agents[g].attempt, a) == Some(t)
    ensures NoNewRestart(s, t) && t.phase == s.phase
  {
    match a
    case AbortEnds(ok) => if ok {} else {}
    case Clear =>
  }

  lemma RequestMakesNoRestart(s: State, r: Request, t: State)
    requires RequestDo(s, r) == Some(t) && s.phase.shuttingDown
    ensures NoNewRestart(s, t) && t.phase.shuttingDown && (s.phase.started ==> t.phase.started)
  {
    match r
    case EnterRetry => if RetryAllowed(s.view.lifecycle) {} else {}
    case _ =>
  }

  lemma ShutdownMakesNoRestart(s: State, g: nat, a: ShutdownAction, t: State)
    requires g in s.agents && s.agents[g].Shutdown? && ShutdownDo(s, g, s.agents[g].shutdown, a) == Some(t)
    ensures NoNewRestart(s, t) && t.phase == s.phase
  {
    match a
    case ShutdownStopEnds(ok) => if s.agents[g].shutdown.taken == None {} else if ok {} else {}
    case _ =>
  }

  lemma SectionMakesNoRestart(s: State, g: nat, a: SectionAction, t: State)
    requires g in s.agents && SectionDo(s, g, a) == Some(t)
    ensures NoNewRestart(s, t) && t.phase == s.phase
  {
    hide ResetTokens, AliveInSlot;
    match a
    case Open => hide CloseSection; if Current(s, g) {} else {}
    case Close =>
      match Wanted(g, s.agents[g]).value {
        case PublishWaiting(_) =>
        case PublishProlonged(_) => if Awaiting(s.view.lifecycle) && Current(s, g) {} else {}
        case PublishHost(_) => if AliveInSlot(s, g) {} else {}
        case _ =>
      }
  }

  lemma StillNoStart(s: State, step: Step, t: State)
    requires Do(s, step) == Some(t) && s.phase.shuttingDown && !MayStart(s)
    ensures t.phase.shuttingDown && !MayStart(t) && !PublishesStarting(s, t)
  {
    StartingComesFromTwoSteps(s, step, t);
    if step.RetryStep? {
      RetryMakesNoRestart(s, step.generation, s.agents[step.generation].retry, step.retry, t);
    } else {
      OthersMakeNoRestart(s, step, t);
    }
  }

  // ---------- Runs and their continuations ----------

  lemma OneStepOn(steps: seq<Step>, more: seq<Step>)
    requires more != [] && Run(steps + more).Some?
    ensures var before := steps + more[..|more| - 1];
            Run(before).Some? && Do(Run(before).value, more[|more| - 1]) == Run(steps + more)
  {
    hide Do;
    assert (steps + more)[..|steps + more| - 1] == steps + more[..|more| - 1];
  }

  /** What may not start by now never will. */
  lemma {:induction false} NeverStarts(steps: seq<Step>, s: State, more: seq<Step>)
    requires Run(steps) == Some(s) && s.phase.shuttingDown && !MayStart(s) && Run(steps + more).Some?
    ensures var t := Run(steps + more).value;
            && t.phase.shuttingDown && !MayStart(t) && s.log <= t.log
            && forall j :: |s.log| <= j < |t.log| ==> t.log[j] != Published(Starting)
  {
    hide Run, Do, MayStart;
    if more == [] {
      assert steps + more == steps;
    } else {
      var before := more[..|more| - 1];
      OneStepOn(steps, more);
      NeverStarts(steps, s, before);
      var u, t, step := Run(steps + before).value, Run(steps + more).value, more[|more| - 1];
      StillNoStart(u, step, t);
      RunLogGrows(steps + before, u, step, t);
      forall j | |s.log| <= j < |t.log|
        ensures t.log[j] != Published(Starting)
      {
        if j < |u.log| {
          assert t.log[j] == u.log[j];
        }
      }
    }
  }

  lemma RunLogGrows(steps: seq<Step>, s: State, step: Step, t: State)
    requires Run(steps) == Some(s) && Do(s, step) == Some(t)
    ensures s.log <= t.log
  {
    hide Do;
    GatedStepsSeeTheProcessAlive(steps, s, step, t);
  }

  // ---------- What shutdown leaves in the state ----------

  /** A raised flag is on its way into the gated section or has been through it, and the history says so. */
  ghost predicate ShutdownTold(s: State) {
    && (s.phase.shuttingDown ==> s.phase.shutdownPending || s.phase.shutdownAgent.Some?)
    && (s.phase.shutdownAgent.Some? ==> ShutdownEntered in s.log)
  }

  lemma PhaseOnlyByRequests(s: State, step: Step, t: State)
    requires Do(s, step) == Some(t) && !step.RequestStep?
    ensures t.phase == s.phase.(generation := t.phase.generation)
  {
    match step
    case SpawnStep(g, a) => HostSteps.SpawnFields(s, g, s.agents[g].attempt, a, t); hide SpawnDo;
    case MoveStep(g, a) => hide Move;
    case StopStep(g, a) => StopMakesNoRestart(s, g, a, t); hide StopDo;
    case SectionStep(g, a) => SectionMakesNoRestart(s, g, a, t); hide SectionDo;
    case RetryStep(g, a) => RetryKeepsPhase(s, g, s.agents[g].retry, a, t); hide RetryDo;
    case ShutdownStep(g, a) => ShutdownMakesNoRestart(s, g, a, t); hide ShutdownDo;
    case WebStep(w) => HostSteps.WebShape(s, w, t); hide WebDo;
    case LeaderExits(p) =>
    case TreeExits(p) =>
  }

  lemma RetryKeepsPhase(s: State, g: nat, pc: RetryPc, a: RetryAction, t: State)
    requires g in s.agents && s.agents[g] == Retry(pc) && RetryDo(s, g, pc, a) == Some(t)
    ensures t.phase == s.phase.(generation := t.phase.generation)
  {
    match a
    case RetryStopEnds(ok) => if pc.taken == None {} else if ok {} else {}
    case _ =>
  }

  lemma RequestTells(s: State, r: Request, t: State)
    requires ShutdownTold(s) && RequestDo(s, r) == Some(t)
    ensures ShutdownTold(t)
  {
    RequestLog(s, r, t);
    if r == EnterShutdown {
      assert t.log[|s.log|] == ShutdownEntered;
    }
    match r
    case EnterRetry => if RetryAllowed(s.view.lifecycle) {} else {}
    case _ =>
  }

  lemma {:induction false} ShutdownIsTold(steps: seq<Step>)
    requires Run(steps).Some?
    ensures ShutdownTold(Run(steps).value)
  {
    hide Do;
    if steps != [] {
      var before, step := steps[..|steps| - 1], steps[|steps| - 1];
      var s, t := Run(before).value, Run(steps).value;
      ShutdownIsTold(before);
      RunLogGrows(before, s, step, t);
      if step.RequestStep? {
        assert RequestDo(s, step.request) == Some(t) by { RequestIsDone(s, step.request); }
        RequestTells(s, step.request, t);
      } else {
        PhaseOnlyByRequests(s, step, t);
      }
    }
  }

  lemma RequestIsDone(s: State, r: Request)
    ensures Do(s, RequestStep(r)) == RequestDo(s, r)
  {
  }

  // ---------- The other half: what may start, can start ----------

  lemma Append(steps: seq<Step>, s: State, more: seq<Step>, step: Step, t: State)
    requires Run(steps + more) == Some(s) && Do(s, step) == Some(t)
    ensures Run(steps + (more + [step])) == Some(t)
  {
    hide Do;
    assert steps + (more + [step]) == (steps + more) + [step];
    assert (steps + more + [step])[..|steps + more|] == steps + more;
  }

  /** What freeing the gates keeps. */
  ghost predicate Undisturbed(s: State, t: State) {
    t.phase == s.phase && (MayStart(s) ==> MayStart(t))
  }

  lemma OwnedSectionCloses(s: State, g: nat) returns (t: State)
    requires Inv(s) && s.view.section.Some? && g in s.agents && Wanted(g, s.agents[g]) == s.view.section
    ensures Do(s, SectionStep(g, Close)) == Some(t) && t.view.section == None && Undisturbed(s, t)
  {
    var section := s.view.section.value;
    t := CloseSection(s, g, section);
    SectionGone(s, g, section);
    assert SectionDo(s, g, Close) == Some(t);
    hide Inv, CloseSection;
    HostSteps.CloseFields(s, g, section, t);
    if s.phase.started && MayStart(s) {
      var n :| n in s.agents && s.agents[n] == Retry(RetryRestarting);
      assert t.agents[n] == s.agents[n];
    }
  }

  lemma SectionGone(s: State, g: nat, section: Section)
    requires g in s.agents && Wanted(g, s.agents[g]) == Some(section)
    ensures CloseSection(s, g, section).view.section == None
  {
    match section
    case PublishWaiting(_) =>
    case PublishProlonged(_) => if Awaiting(s.view.lifecycle) && Current(s, g) {} else {}
    case PublishHost(_) => if AliveInSlot(s, g) {} else {}
    case _ =>
  }

  lemma WebSectionCloses(s: State, w: WebAction) returns (t: State)
    requires s.view.section.Some?
    requires match s.view.section.value
             case ArmNavigation(_) => w == CloseArm
             case ResetForStartup(_) => w == CloseReset
             case BeginLoad(_, _) => w == CloseBegin
             case FinishLoad(_, _) => w == CloseFinish
             case _ => false
    ensures Do(s, WebStep(w)) == Some(t) && t.view.section == None && Undisturbed(s, t)
  {
    var g := s.view.section.value.generation;
    if AliveInSlot(s, g) {} else {}
    t := WebDo(s, w).value;
    HostSteps.WebShape(s, w, t);
  }

  lemma SectionCloses(s: State) returns (step: Step, t: State)
    requires Inv(s) && s.view.section.Some?
    ensures Do(s, step) == Some(t) && t.view.section == None && Undisturbed(s, t)
  {
    hide Do, Undisturbed;
    SectionIsOwned(s);
    match s.view.section.value
    case ArmNavigation(_) => t := WebSectionCloses(s, CloseArm); step := WebStep(CloseArm);
    case ResetForStartup(_) => t := WebSectionCloses(s, CloseReset); step := WebStep(CloseReset);
    case BeginLoad(_, _) => t := WebSectionCloses(s, CloseBegin); step := WebStep(CloseBegin);
    case FinishLoad(_, _) => t := WebSectionCloses(s, CloseFinish); step := WebStep(CloseFinish);
    case _ =>
      t := OwnedSectionCloses(s, s.view.section.value.generation);
      step := SectionStep(s.view.section.value.generation, Close);
  }

  lemma SectionIsOwned(s: State)
    requires Inv(s) && s.view.section.Some?
    ensures match s.view.section.value
            case ArmNavigation(_) => true
            case ResetForStartup(_) => true
            case BeginLoad(_, _) => true
            case FinishLoad(_, _) => true
            case section => section.generation in s.agents &&
                            Wanted(section.generation, s.agents[section.generation]) == s.view.section
  {
  }

  lemma NavigationEnds(s: State) returns (t: State)
    requires s.view.section == None && s.view.navigationGate.Some?
    ensures Do(s, WebStep(Navigated(true))) == Some(t) && GatesFree(t) && Undisturbed(s, t)
  {
    t := WebDo(s, Navigated(true)).value;
  }

  /** Every run goes on to a state with free gates. */
  lemma GatesComeFree(steps: seq<Step>, s: State) returns (more: seq<Step>, t: State)
    requires Run(steps) == Some(s)
    ensures Run(steps + more) == Some(t) && GatesFree(t) && Undisturbed(s, t)
  {
    hide Run, Do, Inv, MayStart;
    more, t := [], s;
    assert steps + more == steps;
    if t.view.section.Some? {
      RunKeeps(steps);
      var step, u := SectionCloses(t);
      Append(steps, t, more, step, u);
      more, t := more + [step], u;
    }
    if t.view.navigationGate.Some? {
      var u := NavigationEnds(t);
      Append(steps, t, more, WebStep(Navigated(true)), u);
      more, t := more + [WebStep(Navigated(true))], u;
    }
  }

  lemma EnterKeeps(s: State) returns (t: State)
    requires Inv(s) && GatesFree(s) && s.phase.shutdownPending && MayStart(s)
    ensures Do(s, RequestStep(EnterShutdown)) == Some(t) && GatesFree(t) && MayStart(t) && t.phase.shutdownAgent.Some?
  {
    t := RequestDo(s, EnterShutdown).value;
    if s.phase.started {
      var g :| g in s.agents && s.agents[g] == Retry(RetryRestarting);
      assert AgentOk(s, g);
      assert t.agents[g] == s.agents[g];
    }
  }

  /** With free gates, what may start can start at once. */
  lemma StartIsEnabled(s: State) returns (step: Step, t: State)
    requires GatesFree(s) && MayStart(s)
    ensures Do(s, step) == Some(t)
    ensures step == RequestStep(StartFirst) || (step.RetryStep? && step.retry == RetryRestart)
  {
    if !s.phase.started {
      step := RequestStep(StartFirst);
    } else {
      var g :| g in s.agents && s.agents[g] == Retry(RetryRestarting);
      step := RetryStep(g, RetryRestart);
    }
    t := Do(s, step).value;
  }

  lemma CanStart(steps: seq<Step>, s: State) returns (more: seq<Step>)
    requires Run(steps) == Some(s) && s.phase.shuttingDown && MayStart(s)
    ensures Run(steps + more).Some? && StartsAfterShutdown(Run(steps + more).value.log, |s.log|)
  {
    hide Run, Do, Inv, MayStart, ShutdownTold, StartsAfterShutdown;
    var t;
    more, t := GatesComeFree(steps, s);
    Told(steps + more, t);
    if t.phase.shutdownPending {
      RunKeeps(steps + more);
      var u := EnterKeeps(t);
      Append(steps, t, more, RequestStep(EnterShutdown), u);
      more, t := more + [RequestStep(EnterShutdown)], u;
      Told(steps + more, t);
    }
    var step, u := StartIsEnabled(t);
    Append(steps, t, more, step, u);
    LogGrowsAlong(steps, s, more);
    RunLogGrows(steps + more, t, step, u);
    StartingComesFromTwoSteps(t, step, u);
    StartShows(s.log, t.log, u.log, t, u);
    more := more + [step];
  }

  lemma StartShows(early: seq<Event>, before: seq<Event>, after: seq<Event>, t: State, u: State)
    requires before == t.log && after == u.log && early <= before <= after && ShutdownEntered in before
    requires PublishesStarting(t, u)
    ensures StartsAfterShutdown(after, |early|)
  {
    var i :| 0 <= i < |before| && before[i] == ShutdownEntered;
    assert after[i] == ShutdownEntered;
  }

  lemma Told(steps: seq<Step>, s: State)
    requires Run(steps) == Some(s)
    ensures s.phase.shuttingDown ==> s.phase.shutdownPending || s.phase.shutdownAgent.Some?
    ensures s.phase.shutdownAgent.Some? ==> ShutdownEntered in s.log
  {
    ShutdownIsTold(steps);
  }

  lemma {:induction false} LogGrowsAlong(steps: seq<Step>, s: State, more: seq<Step>)
    requires Run(steps) == Some(s) && Run(steps + more).Some?
    ensures s.log <= Run(steps + more).value.log
  {
    hide Run, Do;
    if more == [] {
      assert steps + more == steps;
    } else {
      var before := more[..|more| - 1];
      OneStepOn(steps, more);
      LogGrowsAlong(steps, s, before);
      RunLogGrows(steps + before, Run(steps + before).value, more[|more| - 1], Run(steps + more).value);
    }
  }

  /**
   Once the shutdown flag is raised, some continuation publishes Starting behind the entry of shutdown exactly when, now,
   the first start is still to come or some retry worker is past its reading of the flag.
   */
  lemma StartingAfterShutdownExactly(steps: seq<Step>, s: State)
    requires Run(steps) == Some(s) && s.phase.shuttingDown
    ensures MayStart(s) <==>
            exists more :: Run(steps + more).Some? && StartsAfterShutdown(Run(steps + more).value.log, |s.log|)
  {
    hide Run, MayStart;
    if MayStart(s) {
      var more := CanStart(steps, s);
    }
    forall more | Run(steps + more).Some? && StartsAfterShutdown(Run(steps + more).value.log, |s.log|)
      ensures MayStart(s)
    {
      if !MayStart(s) {
        NeverStarts(steps, s, more);
      }
    }
  }
}
