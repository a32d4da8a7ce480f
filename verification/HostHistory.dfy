/** What the published history of every run looks like: Ready is earned in order, and shutdown is final. */
module HostHistory {
  import opened Bytes
  import opened HostProtocol
  import opened HostInvariant
  import opened HostTheorems
  import HostSteps

  /**
   How far the generation of the last bump has come: 1 after a successful probe, 2 once its host origin is published,
   3 once the navigation to its fragment URL is armed, 4 once that very URL has started loading.
   */
  datatype Progress = Progress(generation: nat, stage: nat)

  function Max(a: nat, b: nat): nat {
    if a < b then b else a
  }

  function Advance(p: Progress, e: Event): Progress {
    match e
    case Bumped(g) => Progress(g, 0)
    case ProbeSucceeded(g) => if g == p.generation then p.(stage := Max(p.stage, 1)) else p
    case HostPublished(g) => if g == p.generation && p.stage >= 1 then p.(stage := Max(p.stage, 2)) else p
    case NavigationArmed(g, url) => if g == p.generation && p.stage >= 2 && url == HostPage(g) then p.(stage := 3) else p
    case LoadStarted(g, url) => if g == p.generation && p.stage >= 3 && url == HostPage(g) then p.(stage := 4) else p
    case _ => p
  }

  function Track(log: seq<Event>): Progress {
    if log == [] then Progress(0, 0) else Advance(Track(log[..|log| - 1]), log[|log| - 1])
  }

  lemma TrackAppend(log: seq<Event>, e: Event)
    ensures Track(log + [e]) == Advance(Track(log), e)
  {
    assert (log + [e])[..|log|] == log;
  }

  /** A Ready entry directly follows the end of the load for which stage 4 had been reached. */
  ghost predicate EarnedAt(log: seq<Event>, i: nat)
    requires i < |log|
  {
    && i > 0
    && var p := Track(log[..i - 1]);
       p.stage == 4 && log[i - 1] == LoadFinished(p.generation, HostPage(p.generation))
  }

  ghost predicate ReadyEarned(log: seq<Event>) {
    forall i :: 0 <= i < |log| && log[i] == Published(Ready) ==> EarnedAt(log, i)
  }

  ghost predicate QuietAfterShutdown(log: seq<Event>) {
    forall i, j :: 0 <= i < j < |log| && log[i] == ShutdownEntered && log[j].Published? ==> Ended(log[j].lifecycle)
  }

  predicate Probing(s: State) {
    s.phase.generation in s.agents
    && (s.agents[s.phase.generation] == Attempt(Probed) || s.agents[s.phase.generation] == Attempt(Serving))
  }

  /** The start of a load is being recorded; the navigation token may be taken back meanwhile. */
  predicate Loading(s: State) {
    s.view.section.Some? && s.view.section.value.BeginLoad?
  }

  /** The tokens of a state are backed by its history. */
  ghost predicate Backed(s: State) {
    && Track(s.log).generation == s.phase.generation
    && (Probing(s) ==> Track(s.log).stage >= 1)
    && (s.view.host.Some? ==> Track(s.log).stage >= 2)
    && (s.view.navigation.Some? ==> Track(s.log).stage >= 3)
    && (s.view.load.Some? ==> Track(s.log).stage >= 4)
    && (Loading(s) ==> Track(s.log).stage >= 3)
  }

  ghost predicate HistoryOk(s: State) {
    && Backed(s) && ReadyEarned(s.log) && QuietAfterShutdown(s.log)
    && (ShutdownEntered in s.log ==> s.phase.shutdownAgent.Some?)
  }

  /** An entry other than Ready keeps the history, if it is no late publication. */
  lemma PlainEntry(log: seq<Event>, e: Event)
    requires ReadyEarned(log) && QuietAfterShutdown(log) && e != Published(Ready)
    requires e.Published? && ShutdownEntered in log ==> Ended(e.lifecycle)
    ensures ReadyEarned(log + [e]) && QuietAfterShutdown(log + [e])
  {
    forall i | 0 <= i < |log + [e]| && (log + [e])[i] == Published(Ready) ensures EarnedAt(log + [e], i) {
      assert EarnedAt(log, i);
      assert (log + [e])[..i - 1] == log[..i - 1];
    }
  }

  lemma ReadyEntry(log: seq<Event>, g: nat)
    requires ReadyEarned(log) && QuietAfterShutdown(log) && ShutdownEntered !in log
    requires Track(log) == Progress(g, 4)
    ensures var l := log + [LoadFinished(g, HostPage(g))];
            ReadyEarned(l + [Published(Ready)]) && QuietAfterShutdown(l + [Published(Ready)])
  {
    var l := log + [LoadFinished(g, HostPage(g))];
    PlainEntry(log, LoadFinished(g, HostPage(g)));
    var m := l + [Published(Ready)];
    forall i | 0 <= i < |m| && m[i] == Published(Ready) ensures EarnedAt(m, i) {
      if i == |l| {
        assert m[..i - 1] == log;
      } else {
        assert EarnedAt(l, i);
        assert m[..i - 1] == l[..i - 1];
      }
    }
  }

  /** A step that adds nothing to the history and gains no token. */
  lemma SilentStep(s: State, t: State)
    requires HistoryOk(s) && t.log == s.log && t.phase.generation == s.phase.generation
    requires s.phase.shutdownAgent.Some? ==> t.phase.shutdownAgent.Some?
    requires (Probing(t) ==> Probing(s)) && (t.view.host.Some? ==> s.view.host.Some?)
    requires (t.view.navigation.Some? ==> s.view.navigation.Some?) && (t.view.load.Some? ==> s.view.load.Some?)
    requires Loading(t) ==> Loading(s) || s.view.navigation.Some?
    ensures HistoryOk(t)
  {
  }

  /** A step that adds one entry other than Ready. */
  lemma EntryStep(s: State, e: Event, t: State)
    requires HistoryOk(s) && t.log == s.log + [e] && e != Published(Ready) && e != ShutdownEntered
    requires e.Published? && s.phase.shutdownAgent.Some? ==> Ended(e.lifecycle)
    requires s.phase.shutdownAgent.Some? ==> t.phase.shutdownAgent.Some?
    requires var p := Advance(Track(s.log), e);
             && p.generation == t.phase.generation
             && (Probing(t) ==> p.stage >= 1) && (t.view.host.Some? ==> p.stage >= 2)
             && (t.view.navigation.Some? ==> p.stage >= 3) && (t.view.load.Some? ==> p.stage >= 4)
             && (Loading(t) ==> p.stage >= 3)
    ensures HistoryOk(t)
  {
    TrackAppend(s.log, e);
    PlainEntry(s.log, e);
  }

  lemma SpawnHistory(s: State, g: nat, a: SpawnAction, t: State)
    requires Inv(s) && HistoryOk(s) && g in s.agents && s.agents[g].Attempt?
    requires SpawnDo(s, g, s.agents[g].attempt, a) == Some(t)
    ensures HistoryOk(t)
  {
    hide Inv, HistoryOk, SpawnDo;
    HostSteps.SpawnFields(s, g, s.agents[g].attempt, a, t);
    SpawnShapeLog(s, g, a, t);
    SilentStep(s, t);
  }

  lemma StopHistory(s: State, g: nat, a: StopAction, t: State)
    requires HistoryOk(s) && g in s.agents && s.agents[g].Attempt?
    requires StopDo(s, g, s.agents[g].attempt, a) == Some(t)
    ensures HistoryOk(t)
  {
    hide HistoryOk;
    match a
    case AbortEnds(ok) => if ok {} else {} SilentStep(s, t);
    case Clear => SilentStep(s, t);
  }

  lemma MoveHistory(s: State, g: nat, a: MoveAction, t: State)
    requires HistoryOk(s) && g in s.agents && s.agents[g].Attempt?
    requires MoveDo(s, g, s.agents[g].attempt, a) == Some(t)
    ensures HistoryOk(t)
  {
    if a == Probe {
      EntryStep(s, ProbeSucceeded(g), t);
    } else {
      SilentStep(s, t);
    }
  }

  lemma SectionHistory(s: State, g: nat, a: SectionAction, t: State)
    requires Observation(s) && PhaseOk(s) && HistoryOk(s) && g in s.agents && SectionDo(s, g, a) == Some(t)
    ensures HistoryOk(t)
  {
    hide HistoryOk, Observation, PhaseOk;
    if a == Open {
      hide CloseSection;
      SilentStep(s, t);
    } else {
      CloseHistory(s, g, Wanted(g, s.agents[g]).value, t);
    }
  }

  lemma CloseHistory(s: State, g: nat, section: Section, t: State)
    requires Observation(s) && PhaseOk(s) && HistoryOk(s) && g in s.agents && Wanted(g, s.agents[g]) == Some(section)
    requires s.view.section == Some(section) && t == CloseSection(s, g, section)
    ensures HistoryOk(t)
  {
    hide HistoryOk, Observation, PhaseOk, CloseSection;
    match section
    case PublishHost(_) => PublishHostHistory(s, g, t);
    case _ =>
      NotShutDown(s, section);
      PublishHistory(s, g, section, t);
  }

  lemma PublishHistory(s: State, g: nat, section: Section, t: State)
    requires HistoryOk(s) && g in s.agents && Wanted(g, s.agents[g]) == Some(section) && !section.PublishHost?
    requires s.phase.shutdownAgent.None? && Track(s.log).generation == s.phase.generation
    requires s.view.section == Some(section) && t == CloseSection(s, g, section)
    ensures HistoryOk(t)
  {
    hide HistoryOk, Track, AliveInSlot;
    TokensBacked(s);
    NotProbingAfter(s, g);
    match section
    case PublishWaiting(_) => hide AfterSection; EntryStep(s, Published(WaitingForClient), t);
    case PublishProlonged(_) => ProlongedHistory(s, g, t);
    case _ => hide AfterSection; EntryStep(s, Published(Failed), t);
  }

  lemma ProlongedHistory(s: State, g: nat, t: State)
    requires HistoryOk(s) && Backed(s) && g in s.agents && Wanted(g, s.agents[g]) == Some(PublishProlonged(g))
    requires AfterSection(s.agents[g], true) != Attempt(Probed) && AfterSection(s.agents[g], true) != Attempt(Serving)
    requires s.phase.shutdownAgent.None? && Track(s.log).generation == s.phase.generation
    requires s.view.section == Some(PublishProlonged(g)) && t == CloseSection(s, g, PublishProlonged(g))
    ensures HistoryOk(t)
  {
    hide HistoryOk, Track, AliveInSlot, AfterSection, Wanted;
    if Awaiting(s.view.lifecycle) && Current(s, g) {
      EntryStep(s, Published(ProlongedStartup), t);
    } else {
      SilentStep(s, t);
    }
  }

  lemma NotProbingAfter(s: State, g: nat)
    requires g in s.agents
    ensures AfterSection(s.agents[g], true) != Attempt(Probed) && AfterSection(s.agents[g], true) != Attempt(Serving)
  {
  }

  lemma TokensBacked(s: State)
    requires HistoryOk(s)
    ensures Backed(s)
  {
  }

  /** An open section of an agent means that shutdown has not been entered, and that the history knows the generation. */
  lemma NotShutDown(s: State, section: Section)
    requires Observation(s) && PhaseOk(s) && HistoryOk(s) && s.view.section == Some(section)
    requires section.PublishWaiting? || section.PublishProlonged? || section.PublishFailed?
    ensures s.phase.shutdownAgent == None && Track(s.log).generation == s.phase.generation == section.generation
    ensures s.view.host.Some? ==> Track(s.log).stage >= 2
    ensures s.view.navigation.Some? ==> Track(s.log).stage >= 3
    ensures s.view.load.Some? ==> Track(s.log).stage >= 4
    ensures Probing(s) ==> Track(s.log).stage >= 1
  {
  }

  lemma PublishHostHistory(s: State, g: nat, t: State)
    requires Observation(s) && PhaseOk(s) && HistoryOk(s) && g in s.agents && s.agents[g] == Attempt(Serving)
    requires s.view.section == Some(PublishHost(g)) && t == CloseSection(s, g, PublishHost(g))
    ensures HistoryOk(t)
  {
    hide ReadyEarned, QuietAfterShutdown, Track;
    if AliveInSlot(s, g) {
      EntryStep(s, HostPublished(g), t);
    } else {
      SilentStep(s, t);
    }
  }

  /** A bump publishes Starting or Stopping under a new generation without tokens. */
  lemma BumpHistory(s: State, agent: Agent, l: Lifecycle, t: State)
    requires HistoryOk(s) && Ended(l) && t == Bump(s, agent, l) && (agent.Attempt? ==> agent == Attempt(Launched))
    requires s.view.section == None
    ensures HistoryOk(t)
  {
    var g := s.phase.generation + 1;
    var u := Log(s.(phase := s.phase.(generation := g), view := ResetTokens(s.view)), Bumped(g));
    var v := SetAgent(u, g, agent);
    EntryStep(s, Bumped(g), v);
    EntryStep(v, Published(l), t);
  }

  lemma RetryHistory(s: State, g: nat, a: RetryAction, t: State)
    requires HistoryOk(s) && g in s.agents && s.agents[g].Retry?
    requires RetryDo(s, g, s.agents[g].retry, a) == Some(t)
    ensures HistoryOk(t)
  {
    hide HistoryOk;
    match a
    case RetryEnter => SilentStep(s, t);
    case RetryTake => SilentStep(s, t);
    case RetryStopEnds(ok) => SilentStep(s, t);
    case RetryLower => SilentStep(s, t);
    case RetryDecide => SilentStep(s, t);
    case RetryRestart =>
      var u := SetRetry(s, g, RetryLeaving);
      SilentStep(s, u);
      BumpHistory(u, Attempt(Launched), Starting, t);
    case RetryReturn => SilentStep(s, t);
    case RetryLeave => SilentStep(s, t);
  }

  lemma ShutdownHistory(s: State, g: nat, a: ShutdownAction, t: State)
    requires HistoryOk(s) && g in s.agents && s.agents[g].Shutdown?
    requires ShutdownDo(s, g, s.agents[g].shutdown, a) == Some(t)
    ensures HistoryOk(t)
  {
    hide HistoryOk;
    match a
    case ShutdownEnter => SilentStep(s, t);
    case ShutdownTake => SilentStep(s, t);
    case ShutdownStopEnds(ok) => SilentStep(s, t);
    case ShutdownLeave => SilentStep(s, t);
    case ShutdownInstall => SilentStep(s, t);
  }

  lemma RequestHistory(s: State, r: Request, t: State)
    requires HistoryOk(s) && RequestDo(s, r) == Some(t)
    ensures HistoryOk(t)
  {
    hide Bump;
    match r
    case StartFirst =>
      var u := s.(phase := s.phase.(started := true));
      SilentStep(s, u);
      BumpHistory(u, Attempt(Launched), Starting, t);
    case ClickRetry => SilentStep(s, t);
    case EnterRetry =>
      if RetryAllowed(s.view.lifecycle) {
        var u := Bump(s, Retry(RetryQueued), Stopping);
        BumpHistory(s, Retry(RetryQueued), Stopping, u);
        SilentStep(u, t);
      } else {
        SilentStep(s, t);
      }
    case ClickShutdown => SilentStep(s, t);
    case EnterShutdown =>
      var phase := s.phase.(shutdownPending := false, shutdownAgent := Some(s.phase.generation + 1));
      var u := Log(s.(phase := phase), ShutdownEntered);
      TrackAppend(s.log, ShutdownEntered);
      PlainEntry(s.log, ShutdownEntered);
      BumpHistory(u, Shutdown(ShutdownQueued), Stopping, t);
  }

  lemma ArmHistory(s: State, t: State)
    requires Observation(s) && PhaseOk(s) && HistoryOk(s) && WebDo(s, CloseArm) == Some(t)
    ensures HistoryOk(t)
  {
    hide ReadyEarned, QuietAfterShutdown, Track;
    var g := s.view.section.value.generation;
    if AliveInSlot(s, g) { EntryStep(s, NavigationArmed(g, HostPage(g)), t); } else { SilentStep(s, t); }
  }

  lemma LoadingFacts(s: State)
    requires Observation(s) && PhaseOk(s) && HistoryOk(s) && Loading(s)
    ensures s.view.section.value == BeginLoad(s.phase.generation, HostPage(s.phase.generation))
    ensures Track(s.log).generation == s.phase.generation && Track(s.log).stage >= 3
    ensures s.phase.shutdownAgent.None?
  {
  }

  lemma BeginHistory(s: State, t: State)
    requires Observation(s) && PhaseOk(s) && HistoryOk(s) && WebDo(s, CloseBegin) == Some(t)
    ensures HistoryOk(t)
  {
    LoadingFacts(s);
    TokensBacked(s);
    hide Observation, PhaseOk, HistoryOk, Track;
    var g := s.phase.generation;
    if AliveInSlot(s, g) { EntryStep(s, LoadStarted(g, HostPage(g)), t); } else { SilentStep(s, t); }
  }

  lemma WebHistory(s: State, w: WebAction, t: State)
    requires Observation(s) && PhaseOk(s) && HistoryOk(s) && WebDo(s, w) == Some(t)
    ensures HistoryOk(t)
  {
    hide HistoryOk, Observation, PhaseOk, AliveInSlot;
    match w
    case RunTask(task) => SilentStep(s, t);
    case CloseArm => ArmHistory(s, t);
    case CloseReset => SilentStep(s, t);
    case Navigated(ok) => SilentStep(s, t);
    case OpenBegin(url) => SilentStep(s, t);
    case CloseBegin => BeginHistory(s, t);
    case OpenFinish(url) => SilentStep(s, t);
    case CloseFinish => FinishHistory(s, t);
  }

  lemma FinishHistory(s: State, t: State)
    requires Observation(s) && PhaseOk(s) && HistoryOk(s) && WebDo(s, CloseFinish) == Some(t)
    ensures HistoryOk(t)
  {
    hide ReadyEarned, QuietAfterShutdown, Track;
    var g := s.view.section.value.generation;
    if AliveInSlot(s, g) {
      FinishedLog(s.log, g);
      FinishedState(s, g, t);
    } else {
      SilentStep(s, t);
    }
  }

  function Finished(log: seq<Event>, g: nat): seq<Event> {
    log + [LoadFinished(g, HostPage(g))] + [Published(Ready)]
  }

  lemma FinishedLog(log: seq<Event>, g: nat)
    requires ReadyEarned(log) && QuietAfterShutdown(log) && ShutdownEntered !in log
    requires Track(log).generation == g && Track(log).stage >= 4
    ensures ReadyEarned(Finished(log, g)) && QuietAfterShutdown(Finished(log, g))
    ensures Track(Finished(log, g)) == Track(log) && ShutdownEntered !in Finished(log, g)
  {
    hide ReadyEarned, QuietAfterShutdown;
    StageIsAtMost4(log);
    ReadyEntry(log, g);
    TrackAppend(log, LoadFinished(g, HostPage(g)));
    TrackAppend(log + [LoadFinished(g, HostPage(g))], Published(Ready));
  }

  lemma FinishedState(s: State, g: nat, t: State)
    requires Observation(s) && PhaseOk(s) && HistoryOk(s) && s.view.section == Some(FinishLoad(g, HostPage(g)))
    requires AliveInSlot(s, g) && WebDo(s, CloseFinish) == Some(t)
    ensures t.log == Finished(s.log, g) && t.phase == s.phase && t.agents == s.agents
    ensures t.view.host == s.view.host && t.view.navigation == None && t.view.load == None
  {
    hide ReadyEarned, QuietAfterShutdown, Track;
  }

  lemma StageIsAtMost4(log: seq<Event>)
    ensures Track(log).stage <= 4
  {
  }

  lemma StepHistory(s: State, step: Step, t: State)
    requires Inv(s) && HistoryOk(s) && Do(s, step) == Some(t)
    ensures HistoryOk(t)
  {
    hide HistoryOk;
    match step
    case SpawnStep(g, a) => SpawnHistory(s, g, a, t);
    case MoveStep(g, a) => MoveHistory(s, g, a, t);
    case StopStep(g, a) => StopHistory(s, g, a, t);
    case SectionStep(g, a) => SectionHistory(s, g, a, t);
    case RetryStep(g, a) => RetryHistory(s, g, a, t);
    case ShutdownStep(g, a) => ShutdownHistory(s, g, a, t);
    case RequestStep(r) => RequestHistory(s, r, t);
    case WebStep(w) => WebHistory(s, w, t);
    case LeaderExits(p) => SilentStep(s, t);
    case TreeExits(p) => SilentStep(s, t);
  }

  lemma {:induction false} RunHistory(steps: seq<Step>)
    requires Run(steps).Some?
    ensures HistoryOk(Run(steps).value)
  {
    hide Inv;
    if steps != [] {
      var before := steps[..|steps| - 1];
      RunKeeps(before);
      RunHistory(before);
      StepHistory(Run(before).value, steps[|steps| - 1], Run(steps).value);
    }
  }

  // ---- from stages back to entries ----

  /** No bump between entry `i` and the end of the log. */
  ghost predicate SameGenerationSince(log: seq<Event>, i: nat) {
    forall k :: i <= k < |log| ==> !log[k].Bumped?
  }

  lemma {:induction false} ProbeEntry(log: seq<Event>) returns (a: nat)
    requires Track(log).stage >= 1
    ensures a < |log| && log[a] == ProbeSucceeded(Track(log).generation) && SameGenerationSince(log, a)
  {
    var before := log[..|log| - 1];
    if Track(before).stage >= 1 {
      a := ProbeEntry(before);
    } else {
      a := |log| - 1;
    }
  }

  lemma {:induction false} HostEntry(log: seq<Event>) returns (a: nat, b: nat)
    requires Track(log).stage >= 2
    ensures a < b < |log| && SameGenerationSince(log, a)
    ensures log[a] == ProbeSucceeded(Track(log).generation) && log[b] == HostPublished(Track(log).generation)
  {
    var before := log[..|log| - 1];
    if Track(before).stage >= 2 {
      a, b := HostEntry(before);
    } else {
      a := ProbeEntry(before);
      b := |log| - 1;
    }
  }

  lemma {:induction false} ArmedEntry(log: seq<Event>) returns (a: nat, b: nat, c: nat)
    requires Track(log).stage >= 3
    ensures a < b < c < |log| && SameGenerationSince(log, a)
    ensures var g := Track(log).generation;
            log[a] == ProbeSucceeded(g) && log[b] == HostPublished(g) && log[c] == NavigationArmed(g, HostPage(g))
  {
    var before := log[..|log| - 1];
    if Track(before).stage >= 3 {
      a, b, c := ArmedEntry(before);
    } else {
      a, b := HostEntry(before);
      c := |log| - 1;
    }
  }

  lemma {:induction false} StartedEntry(log: seq<Event>) returns (a: nat, b: nat, c: nat, d: nat)
    requires Track(log).stage >= 4
    ensures a < b < c < d < |log| && SameGenerationSince(log, a)
    ensures var g := Track(log).generation;
            && log[a] == ProbeSucceeded(g) && log[b] == HostPublished(g) && log[c] == NavigationArmed(g, HostPage(g))
            && log[d] == LoadStarted(g, HostPage(g))
  {
    var before := log[..|log| - 1];
    if Track(before).stage >= 4 {
      a, b, c, d := StartedEntry(before);
    } else {
      a, b, c := ArmedEntry(before);
      d := |log| - 1;
    }
  }

  /** Entries `a` to `d` and the one before `i` lead to Ready for generation `g`, with no bump from `a` to `i`. */
  ghost predicate LeadsToReady(log: seq<Event>, g: nat, a: nat, b: nat, c: nat, d: nat, i: nat) {
    && a < b < c < d < i - 1 < |log|
    && log[a] == ProbeSucceeded(g) && log[b] == HostPublished(g) && log[c] == NavigationArmed(g, HostPage(g))
    && log[d] == LoadStarted(g, HostPage(g)) && log[i - 1] == LoadFinished(g, HostPage(g))
    && SameGenerationSince(log[..i], a)
  }

  /**
   Publishing Ready is preceded, in this order and without a bump in between, by a successful probe of one generation,
   the publication of its host origin, the arming of the navigation to its fragment URL, the start of exactly that URL
   and its end.
   */
  lemma ReadyIsEarnedInOrder(steps: seq<Step>, s: State, i: nat)
    requires Run(steps) == Some(s) && i < |s.log| && s.log[i] == Published(Ready)
    ensures exists g, a, b, c, d :: LeadsToReady(s.log, g, a, b, c, d, i)
  {
    hide Run, Backed, QuietAfterShutdown, Track, SameGenerationSince;
    RunHistory(steps);
    assert EarnedAt(s.log, i);
    var before := s.log[..i - 1];
    var a, b, c, d := StartedEntry(before);
    LongerLog(s.log, i, a);
    assert LeadsToReady(s.log, Track(before).generation, a, b, c, d, i);
  }

  lemma LongerLog(log: seq<Event>, i: nat, a: nat)
    requires 0 < i < |log| && SameGenerationSince(log[..i - 1], a) && log[i - 1].LoadFinished?
    ensures SameGenerationSince(log[..i], a)
  {
    forall k | a <= k < i ensures !log[..i][k].Bumped? {
      if k < i - 1 {
        assert log[..i - 1][k] == log[k];
      }
    }
  }

  /** After the gated section of shutdown, nothing but Starting and Stopping is ever published again. */
  lemma ShutdownIsFinal(steps: seq<Step>, s: State, i: nat, j: nat)
    requires Run(steps) == Some(s) && i < j < |s.log| && s.log[i] == ShutdownEntered && s.log[j].Published?
    ensures Ended(s.log[j].lifecycle)
  {
    RunHistory(steps);
  }

  /** The generation of an entry that claims to have seen its process alive. */
  function ClaimsAlive(e: Event): Option<nat> {
    match e
    case HostPublished(g) => Some(g)
    case NavigationArmed(g, _) => Some(g)
    case LoadStarted(g, _) => Some(g)
    case LoadFinished(g, _) => Some(g)
    case _ => None
  }

  /** A step adds to the history, and its first new entry claims a living process only of one that is in the slot. */
  ghost predicate HonestStep(s: State, t: State) {
    && s.log <= t.log
    && (|s.log| < |t.log| ==>
          var claim := ClaimsAlive(t.log[|s.log|]);
          claim.Some? ==> claim.value == s.phase.generation && AliveInSlot(s, claim.value))
  }

  /** Every gated step on the way to Ready sees the process of the current generation alive. */
  lemma GatedStepsSeeTheProcessAlive(steps: seq<Step>, s: State, step: Step, t: State)
    requires Run(steps) == Some(s) && Do(s, step) == Some(t)
    ensures HonestStep(s, t)
  {
    hide Inv, Run;
    RunKeeps(steps);
    InvHasSection(s);
    hide SectionOk, SpawnDo, MoveDo, StopDo, SectionDo, RetryDo, ShutdownDo, RequestDo, WebDo;
    match step
    case SpawnStep(g, a) => SpawnShapeLog(s, g, a, t);
    case MoveStep(g, a) => MoveLog(s, g, s.agents[g].attempt, a, t);
    case StopStep(g, a) => StopLog(s, g, s.agents[g].attempt, a, t);
    case SectionStep(g, a) => HonestSection(s, g, a, t);
    case RetryStep(g, a) => RetryLog(s, g, a, t);
    case ShutdownStep(g, a) => ShutdownLog(s, g, a, t);
    case RequestStep(r) => RequestLog(s, r, t);
    case WebStep(w) => HonestWeb(s, w, t);
    case LeaderExits(p) =>
    case TreeExits(p) =>
  }

  lemma MoveLog(s: State, g: nat, pc: AttemptPc, a: MoveAction, t: State)
    requires g in s.agents && MoveDo(s, g, pc, a) == Some(t)
    ensures t.log == s.log || t.log == s.log + [ProbeSucceeded(g)]
  {
    hide Move;
  }

  lemma StopLog(s: State, g: nat, pc: AttemptPc, a: StopAction, t: State)
    requires g in s.agents && StopDo(s, g, pc, a) == Some(t)
    ensures t.log == s.log
  {
    match a
    case AbortEnds(ok) => if ok {} else {}
    case Clear =>
  }

  lemma InvHasSection(s: State)
    requires Inv(s)
    ensures SectionOk(s)
  {
  }

  lemma SpawnShapeLog(s: State, g: nat, a: SpawnAction, t: State)
    requires g in s.agents && s.agents[g].Attempt? && SpawnDo(s, g, s.agents[g].attempt, a) == Some(t)
    ensures t.log == s.log && g in t.agents && t.agents[g] != Attempt(Probed) && t.agents[g] != Attempt(Serving)
  {
    match a
    case Enter => if Current(s, g) {} else {}
    case DiscardEnds(ok) => if ok {} else {}
    case CollideEnds(ok) => if ok {} else {}
    case _ =>
  }

  lemma HonestSection(s: State, g: nat, a: SectionAction, t: State)
    requires SectionOk(s) && g in s.agents && SectionDo(s, g, a) == Some(t)
    ensures HonestStep(s, t)
  {
    if a == Open {
      hide CloseSection;
    } else {
      match Wanted(g, s.agents[g]).value
      case PublishWaiting(_) =>
      case PublishProlonged(_) => if Awaiting(s.view.lifecycle) && Current(s, g) {} else {}
      case PublishHost(_) => if AliveInSlot(s, g) {} else {}
      case _ =>
    }
  }

  lemma RetryLog(s: State, g: nat, a: RetryAction, t: State)
    requires g in s.agents && s.agents[g].Retry? && RetryDo(s, g, s.agents[g].retry, a) == Some(t)
    ensures t.log == if a == RetryRestart then s.log + [Bumped(s.phase.generation + 1)] + [Published(Starting)] else s.log
  {
    match a
    case RetryStopEnds(ok) => if s.agents[g].retry.taken == None {} else if ok {} else {}
    case _ =>
  }

  lemma ShutdownLog(s: State, g: nat, a: ShutdownAction, t: State)
    requires g in s.agents && s.agents[g].Shutdown? && ShutdownDo(s, g, s.agents[g].shutdown, a) == Some(t)
    ensures t.log == s.log
  {
    match a
    case ShutdownStopEnds(ok) => if s.agents[g].shutdown.taken == None {} else if ok {} else {}
    case _ =>
  }

  lemma RequestLog(s: State, r: Request, t: State)
    requires RequestDo(s, r) == Some(t)
    ensures r == StartFirst ==> t.log == s.log + [Bumped(s.phase.generation + 1)] + [Published(Starting)]
    ensures r == ClickRetry || r == ClickShutdown ==> t.log == s.log
    ensures r == EnterRetry ==>
              t.log == s.log || t.log == s.log + [Bumped(s.phase.generation + 1)] + [Published(Stopping)]
    ensures r == EnterShutdown ==>
              t.log == s.log + [ShutdownEntered] + [Bumped(s.phase.generation + 1)] + [Published(Stopping)]
  {
    match r
    case EnterRetry => if RetryAllowed(s.view.lifecycle) {} else {}
    case _ =>
  }

  lemma HonestWeb(s: State, w: WebAction, t: State)
    requires SectionOk(s) && WebDo(s, w) == Some(t)
    ensures HonestStep(s, t)
    ensures t.log == s.log || (w.CloseArm? || w.CloseBegin? || w.CloseFinish?)
  {
    match w
    case CloseArm => if AliveInSlot(s, s.view.section.value.generation) {} else {}
    case CloseBegin => if AliveInSlot(s, s.view.section.value.generation) {} else {}
    case CloseFinish => if AliveInSlot(s, s.view.section.value.generation) {} else {}
    case _ =>
  }

  /**
   Not even Starting is excluded after shutdown: a retry worker that read the flag before it was raised, like the very
   first start, still publishes it.
   */
  lemma RestartRacesShutdown(s: State, g: nat)
    requires g in s.agents && s.agents[g] == Retry(RetryRestarting) && g <= s.phase.generation && GatesFree(s)
    requires !s.phase.shuttingDown
    ensures var raised := Do(s, RequestStep(ClickShutdown));
            && raised.Some?
            && var entered := Do(raised.value, RequestStep(EnterShutdown));
            && entered.Some? && entered.value.view.lifecycle == Stopping
            && var restarted := Do(entered.value, RetryStep(g, RetryRestart));
            && restarted.Some? && restarted.value.view.lifecycle == Starting
            && ShutdownEntered in restarted.value.log
  {
    var raised := RequestDo(s, ClickShutdown).value;
    EnteringPublishesStopping(raised, g);
    var entered := RequestDo(raised, EnterShutdown).value;
    RestartPublishesStarting(entered, g);
  }

  lemma EnteringPublishesStopping(s: State, g: nat)
    requires g in s.agents && s.agents[g] == Retry(RetryRestarting) && g <= s.phase.generation && GatesFree(s)
    requires s.phase.shutdownPending
    ensures var t := RequestDo(s, EnterShutdown);
            && t.Some? && t.value.view.lifecycle == Stopping && GatesFree(t.value) && ShutdownEntered in t.value.log
            && g in t.value.agents && t.value.agents[g] == Retry(RetryRestarting)
  {
    RequestLog(s, EnterShutdown, RequestDo(s, EnterShutdown).value);
    assert RequestDo(s, EnterShutdown).value.log[|s.log|] == ShutdownEntered;
  }

  lemma RestartPublishesStarting(s: State, g: nat)
    requires g in s.agents && s.agents[g] == Retry(RetryRestarting) && GatesFree(s) && ShutdownEntered in s.log
    ensures var t := RetryDo(s, g, RetryRestarting, RetryRestart);
            t.Some? && t.value.view.lifecycle == Starting && ShutdownEntered in t.value.log
  {
    RetryLog(s, g, RetryRestart, RetryDo(s, g, RetryRestarting, RetryRestart).value);
  }

  ghost predicate PublishesStarting(s: State, t: State) {
    exists k :: |s.log| <= k < |t.log| && t.log[k] == Published(Starting)
  }

  lemma BumpPublishesStarting(s: State, t: State)
    requires t.log == s.log + [Bumped(s.phase.generation + 1)] + [Published(Starting)]
    ensures PublishesStarting(s, t)
  {
    assert t.log[|s.log| + 1] == Published(Starting);
  }

  /** In any state, the steps that publish Starting are the first start and the restart of a retry worker. */
  lemma StartingComesFromTwoSteps(s: State, step: Step, t: State)
    requires Do(s, step) == Some(t)
    ensures PublishesStarting(s, t) <==>
              step == RequestStep(StartFirst) || (step.RetryStep? && step.retry == RetryRestart)
  {
    match step
    case SpawnStep(g, a) => SpawnShapeLog(s, g, a, t); hide SpawnDo;
    case MoveStep(g, a) => hide Move;
    case StopStep(g, a) => match a { case AbortEnds(ok) => if ok {} else {} case Clear => }
    case SectionStep(g, a) => SectionNeverStarts(s, g, a, t); hide SectionDo;
    case RetryStep(g, a) =>
      RetryLog(s, g, a, t);
      hide RetryDo;
      if a == RetryRestart { BumpPublishesStarting(s, t); }
    case ShutdownStep(g, a) => ShutdownLog(s, g, a, t); hide ShutdownDo;
    case RequestStep(r) =>
      RequestLog(s, r, t);
      hide RequestDo;
      if r == StartFirst { BumpPublishesStarting(s, t); }
    case WebStep(w) => WebNeverStarts(s, w, t); hide WebDo;
    case LeaderExits(p) =>
    case TreeExits(p) =>
  }

  lemma SectionNeverStarts(s: State, g: nat, a: SectionAction, t: State)
    requires g in s.agents && SectionDo(s, g, a) == Some(t)
    ensures !PublishesStarting(s, t)
  {
    match a
    case Open => hide CloseSection; if Current(s, g) {} else {}
    case Close =>
      match Wanted(g, s.agents[g]).value {
        case PublishWaiting(_) =>
        case PublishProlonged(_) => if Awaiting(s.view.lifecycle) && Current(s, g) {} else {}
        case PublishHost(_) => if AliveInSlot(s, g) {} else {}
        case _ =>
      }
  }

  lemma WebNeverStarts(s: State, w: WebAction, t: State)
    requires WebDo(s, w) == Some(t)
    ensures !PublishesStarting(s, t)
  {
    match w
    case CloseArm => if AliveInSlot(s, s.view.section.value.generation) {} else {}
    case CloseBegin => if AliveInSlot(s, s.view.section.value.generation) {} else {}
    case CloseFinish => if AliveInSlot(s, s.view.section.value.generation) {} else {}
    case _ =>
  }
}
