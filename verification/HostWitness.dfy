/** Runs of the host protocol that show its states to be reachable: Ready, and Starting published after shutdown. */
module HostWitness {
  import opened Bytes
  import opened HostProtocol
  import opened HostHistory

  lemma OneMore(steps: seq<Step>, s: State, step: Step, t: State)
    requires Run(steps) == Some(s) && Do(s, step) == Some(t)
    ensures Run(steps + [step]) == Some(t)
  {
    hide Do;
    assert (steps + [step])[..|steps|] == steps;
  }

  lemma Three(steps: seq<Step>, s: State, x: Step, a: State, y: Step, b: State, z: Step, c: State)
    returns (more: seq<Step>)
    requires Run(steps) == Some(s) && Do(s, x) == Some(a) && Do(a, y) == Some(b) && Do(b, z) == Some(c)
    ensures Run(more) == Some(c)
  {
    hide Run, Do;
    OneMore(steps, s, x, a);
    OneMore(steps + [x], a, y, b);
    OneMore(steps + [x] + [y], b, z, c);
    more := steps + [x] + [y] + [z];
  }

  lemma Four(steps: seq<Step>, s: State, x: Step, a: State, y: Step, b: State, z: Step, c: State, w: Step, d: State)
    returns (more: seq<Step>)
    requires Run(steps) == Some(s) && Do(s, x) == Some(a) && Do(a, y) == Some(b) && Do(b, z) == Some(c)
    requires Do(c, w) == Some(d)
    ensures Run(more) == Some(d)
  {
    hide Run, Do;
    more := Three(steps, s, x, a, y, b, z, c);
    OneMore(more, c, w, d);
    more := more + [w];
  }

  /** The first attempt of a run, with nothing else going on. */
  predicate Alone(s: State, pc: AttemptPc, gate: Option<nat>) {
    && s.phase == Phase(1, true, false, false, None) && s.agents == map[1 := Attempt(pc)]
    && s.view.section == None && s.view.navigationGate == None && s.custody.lifecycleGate == gate
    && !s.retrying && !s.retryPending
  }

  lemma Begin() returns (steps: seq<Step>, s: State)
    ensures Run(steps) == Some(s) && Alone(s, Launched, None) && s.view.lifecycle == Starting && s.view.host == None
    ensures s.custody == Custody(None, None, map[], {}) && s.tasks == {}
  {
    assert Run([]) == Some(Init());
    s := RequestDo(Init(), StartFirst).value;
    steps := [RequestStep(StartFirst)];
    OneMore([], Init(), RequestStep(StartFirst), s);
    assert [] + [RequestStep(StartFirst)] == steps;
  }

  // ---------- Starting after Stopping ----------

  lemma FailToSpawn(s: State) returns (a: State, b: State, c: State, d: State)
    requires Alone(s, Launched, None) && s.custody.slot == None
    ensures Do(s, SpawnStep(1, Enter)) == Some(a) && Do(a, SpawnStep(1, SpawnFails)) == Some(b)
    ensures Do(b, SectionStep(1, Open)) == Some(c) && Do(c, SectionStep(1, Close)) == Some(d)
    ensures Alone(d, Done, None) && d.view.lifecycle == Failed && d.custody.slot == None
  {
    a := SetGate(SetAttempt(s, 1, Spawning), Some(1));
    b := SetGate(SetAttempt(a, 1, Failing), None);
    assert Alone(b, Failing, None);
    c, d := PublishFailure(b);
  }

  lemma PublishFailure(s: State) returns (a: State, b: State)
    requires Alone(s, Failing, None) && s.custody.slot == None
    ensures Do(s, SectionStep(1, Open)) == Some(a) && Do(a, SectionStep(1, Close)) == Some(b)
    ensures Alone(b, Done, None) && b.view.lifecycle == Failed && b.custody.slot == None
  {
    a := SetSection(s, Some(PublishFailed(1)));
    b := CloseSection(a, 1, PublishFailed(1));
    assert b.agents == map[1 := Attempt(Done)];
  }

  predicate Retrying(s: State, pc: RetryPc, gate: Option<nat>) {
    && s.phase == Phase(2, true, false, false, None) && GatesFree(s)
    && 2 in s.agents && s.agents[2] == Retry(pc) && s.custody.lifecycleGate == gate
  }

  lemma AskForRetry(s: State) returns (a: State, b: State, c: State)
    requires Alone(s, Done, None) && s.view.lifecycle == Failed && s.custody.slot == None
    ensures Do(s, RequestStep(ClickRetry)) == Some(a) && Do(a, RequestStep(EnterRetry)) == Some(b)
    ensures Do(b, RetryStep(2, RetryEnter)) == Some(c)
    ensures Retrying(c, RetryTaking, Some(2)) && c.custody.slot == None
  {
    a := s.(retrying := true, retryPending := true);
    b := Bump(a, Retry(RetryQueued), Stopping).(retryPending := false);
    c := SetGate(SetRetry(b, 2, RetryTaking), Some(2));
  }

  lemma RunRetry(s: State) returns (a: State, b: State, c: State, d: State)
    requires Retrying(s, RetryTaking, Some(2)) && s.custody.slot == None
    ensures Do(s, RetryStep(2, RetryTake)) == Some(a) && Do(a, RetryStep(2, RetryStopEnds(true))) == Some(b)
    ensures Do(b, RetryStep(2, RetryLower)) == Some(c) && Do(c, RetryStep(2, RetryDecide)) == Some(d)
    ensures Retrying(d, RetryRestarting, Some(2))
  {
    a := SetSlot(SetRetry(s, 2, RetryStopping(None)), None);
    b := SetRetry(a, 2, RetryStopped);
    c := SetRetry(b, 2, RetryDeciding).(retrying := false);
    d := SetRetry(c, 2, RetryRestarting);
  }

  /** A run in which Starting is published after shutdown was entered. */
  lemma StartingAfterStoppingHappens()
    ensures exists steps ::
              Run(steps).Some? && Run(steps).value.view.lifecycle == Starting && ShutdownEntered in Run(steps).value.log
  {
    hide Run, Do, Alone, Retrying;
    var steps, s := Begin();
    var a, b, c, d := FailToSpawn(s);
    steps := Four(steps, s, SpawnStep(1, Enter), a, SpawnStep(1, SpawnFails), b, SectionStep(1, Open), c,
                  SectionStep(1, Close), d);
    var e, f, g := AskForRetry(d);
    steps := Three(steps, d, RequestStep(ClickRetry), e, RequestStep(EnterRetry), f, RetryStep(2, RetryEnter), g);
    var h, i, j, k := RunRetry(g);
    steps := Four(steps, g, RetryStep(2, RetryTake), h, RetryStep(2, RetryStopEnds(true)), i,
                  RetryStep(2, RetryLower), j, RetryStep(2, RetryDecide), k);
    ReadyToRace(k);
    RestartRacesShutdown(k, 2);
    var raised := Do(k, RequestStep(ClickShutdown)).value;
    var entered := Do(raised, RequestStep(EnterShutdown)).value;
    var restarted := Do(entered, RetryStep(2, RetryRestart)).value;
    steps := Three(steps, k, RequestStep(ClickShutdown), raised, RequestStep(EnterShutdown), entered,
                   RetryStep(2, RetryRestart), restarted);
    assert Run(steps) == Some(restarted);
  }

  lemma ReadyToRace(s: State)
    requires Retrying(s, RetryRestarting, Some(2))
    ensures 2 in s.agents && s.agents[2] == Retry(RetryRestarting) && 2 <= s.phase.generation && GatesFree(s)
    ensures !s.phase.shuttingDown
  {
  }

  // ---------- Ready ----------

  predicate Serving1(s: State, pc: AttemptPc) {
    Alone(s, pc, None) && AliveInSlot(s, 1)
  }

  lemma SpawnIt(s: State) returns (a: State, b: State, c: State, d: State)
    requires Alone(s, Launched, None) && s.custody.slot == None && s.custody.processes == map[]
    ensures Do(s, SpawnStep(1, Enter)) == Some(a) && Do(a, SpawnStep(1, Spawn)) == Some(b)
    ensures Do(b, SpawnStep(1, Recheck)) == Some(c) && Do(c, SpawnStep(1, Store)) == Some(d)
    ensures Serving1(d, Holding) && d.view == s.view && d.tasks == s.tasks
  {
    a := SetGate(SetAttempt(s, 1, Spawning), Some(1));
    b := SetProcess(SetAttempt(a, 1, Spawned), 1, Process(false, false, false, false));
    c := SetAttempt(b, 1, Rechecked);
    d := SetGate(SetSlot(SetAttempt(c, 1, Holding), Some(1)), None);
    assert d.agents == map[1 := Attempt(Holding)];
  }

  lemma WaitForIt(s: State) returns (a: State, b: State, c: State, d: State)
    requires Serving1(s, Holding)
    ensures Do(s, SectionStep(1, Open)) == Some(a) && Do(a, SectionStep(1, Close)) == Some(b)
    ensures Do(b, MoveStep(1, Probe)) == Some(c) && Do(c, MoveStep(1, ConfirmReady)) == Some(d)
    ensures Serving1(d, Serving) && d.view.lifecycle == WaitingForClient
  {
    a := SetSection(s, Some(PublishWaiting(1)));
    b := CloseSection(a, 1, PublishWaiting(1));
    c := MoveDo(b, 1, Waiting, Probe).value;
    d := MoveDo(c, 1, Probed, ConfirmReady).value;
    assert b.agents == map[1 := Attempt(Waiting)] && d.agents == map[1 := Attempt(Serving)];
  }

  lemma ServeIt(s: State) returns (a: State, b: State, c: State)
    requires Serving1(s, Serving) && s.view.lifecycle == WaitingForClient
    ensures Do(s, SectionStep(1, Open)) == Some(a) && Do(a, SectionStep(1, Close)) == Some(b)
    ensures Do(b, MoveStep(1, Queue)) == Some(c)
    ensures Serving1(c, Watching) && c.view.lifecycle == WaitingForClient && c.view.host == Some(1) && ToHost(1) in c.tasks
  {
    a := SetSection(s, Some(PublishHost(1)));
    b := CloseSection(a, 1, PublishHost(1));
    c := MoveDo(b, 1, Navigating, Queue).value;
    assert b.agents == map[1 := Attempt(Navigating)] && c.agents == map[1 := Attempt(Watching)];
  }

  lemma NavigateIt(s: State) returns (a: State, b: State, c: State)
    requires Serving1(s, Watching) && s.view.lifecycle == WaitingForClient && s.view.host == Some(1) && ToHost(1) in s.tasks
    ensures Do(s, WebStep(RunTask(ToHost(1)))) == Some(a) && Do(a, WebStep(CloseArm)) == Some(b)
    ensures Do(b, WebStep(Navigated(true))) == Some(c)
    ensures Serving1(c, Watching) && c.view.lifecycle == WaitingForClient && c.view.host == Some(1)
    ensures c.view.navigation == Some(1) && c.view.navigationUrl == Some(HostPage(1))
  {
    a := WebDo(s, RunTask(ToHost(1))).value;
    b := WebDo(a, CloseArm).value;
    c := WebDo(b, Navigated(true)).value;
  }

  lemma LoadIt(s: State) returns (a: State, b: State, c: State, d: State)
    requires Serving1(s, Watching) && s.view.lifecycle == WaitingForClient && s.view.host == Some(1)
    requires s.view.navigation == Some(1) && s.view.navigationUrl == Some(HostPage(1))
    ensures Do(s, WebStep(OpenBegin(HostPage(1)))) == Some(a) && Do(a, WebStep(CloseBegin)) == Some(b)
    ensures Do(b, WebStep(OpenFinish(HostPage(1)))) == Some(c) && Do(c, WebStep(CloseFinish)) == Some(d)
    ensures d.view.lifecycle == Ready
  {
    a := WebDo(s, OpenBegin(HostPage(1))).value;
    b := WebDo(a, CloseBegin).value;
    c := WebDo(b, OpenFinish(HostPage(1))).value;
    d := WebDo(c, CloseFinish).value;
  }

  /** A run that gets to Ready. */
  lemma ReadyHappens()
    ensures exists steps :: Run(steps).Some? && Run(steps).value.view.lifecycle == Ready
  {
    hide Run, Do, Alone, Serving1;
    var steps, s := Begin();
    var a, b, c, d := SpawnIt(s);
    steps := Four(steps, s, SpawnStep(1, Enter), a, SpawnStep(1, Spawn), b, SpawnStep(1, Recheck), c,
                  SpawnStep(1, Store), d);
    var e, f, g, h := WaitForIt(d);
    steps := Four(steps, d, SectionStep(1, Open), e, SectionStep(1, Close), f, MoveStep(1, Probe), g,
                  MoveStep(1, ConfirmReady), h);
    var i, j, k := ServeIt(h);
    steps := Three(steps, h, SectionStep(1, Open), i, SectionStep(1, Close), j, MoveStep(1, Queue), k);
    var l, m, n := NavigateIt(k);
    steps := Three(steps, k, WebStep(RunTask(ToHost(1))), l, WebStep(CloseArm), m, WebStep(Navigated(true)), n);
    var o, p, q, r := LoadIt(n);
    steps := Four(steps, n, WebStep(OpenBegin(HostPage(1))), o, WebStep(CloseBegin), p,
                  WebStep(OpenFinish(HostPage(1))), q, WebStep(CloseFinish), r);
    assert Run(steps) == Some(r);
  }

  // ---------- Retrying a long start ----------

  lemma ProlongIt(s: State) returns (a: State, b: State, c: State, d: State, e: State)
    requires Serving1(s, Holding)
    ensures Do(s, SectionStep(1, Open)) == Some(a) && Do(a, SectionStep(1, Close)) == Some(b)
    ensures Do(b, MoveStep(1, Prolong)) == Some(c)
    ensures Do(c, SectionStep(1, Open)) == Some(d) && Do(d, SectionStep(1, Close)) == Some(e)
    ensures Serving1(e, Waiting) && e.view.lifecycle == ProlongedStartup
  {
    a := SetSection(s, Some(PublishWaiting(1)));
    b := CloseSection(a, 1, PublishWaiting(1));
    c := MoveDo(b, 1, Waiting, Prolong).value;
    d := SetSection(c, Some(PublishProlonged(1)));
    e := CloseSection(d, 1, PublishProlonged(1));
    assert b.agents == map[1 := Attempt(Waiting)] && c.agents == map[1 := Attempt(Prolonging)];
    assert e.agents == map[1 := Attempt(Waiting)];
  }

  lemma RetryIt(s: State) returns (a: State, b: State)
    requires Serving1(s, Waiting) && s.view.lifecycle == ProlongedStartup
    ensures Do(s, RequestStep(ClickRetry)) == Some(a) && Do(a, RequestStep(EnterRetry)) == Some(b)
    ensures b.view.lifecycle == Stopping && 2 in b.agents && b.agents[2] == Retry(RetryQueued)
    ensures b.log == s.log + [Bumped(2), Published(Stopping)]
  {
    a := s.(retrying := true, retryPending := true);
    b := RequestDo(a, EnterRetry).value;
  }

  /** A run in which a start that takes long is retried. */
  lemma RetryOfLongStartHappens()
    ensures exists steps, s, t ::
              && Run(steps) == Some(s) && s.view.lifecycle == ProlongedStartup && s.retryPending
              && Do(s, RequestStep(EnterRetry)) == Some(t) && t.log == s.log + [Bumped(2), Published(Stopping)]
              && 2 in t.agents && t.agents[2] == Retry(RetryQueued)
  {
    hide Run, Do, Alone, Serving1;
    var steps, s := Begin();
    var a, b, c, d := SpawnIt(s);
    steps := Four(steps, s, SpawnStep(1, Enter), a, SpawnStep(1, Spawn), b, SpawnStep(1, Recheck), c,
                  SpawnStep(1, Store), d);
    var e, f, g, h, i := ProlongIt(d);
    steps := Four(steps, d, SectionStep(1, Open), e, SectionStep(1, Close), f, MoveStep(1, Prolong), g,
                  SectionStep(1, Open), h);
    OneMore(steps, h, SectionStep(1, Close), i);
    steps := steps + [SectionStep(1, Close)];
    var j, k := RetryIt(i);
    OneMore(steps, i, RequestStep(ClickRetry), j);
    ClickedFromProlonged(i, j);
    assert Run(steps + [RequestStep(ClickRetry)]) == Some(j) && Do(j, RequestStep(EnterRetry)) == Some(k);
  }

  lemma ClickedFromProlonged(s: State, t: State)
    requires Do(s, RequestStep(ClickRetry)) == Some(t)
    ensures t.view == s.view && t.log == s.log && t.retryPending
  {
  }

  // ---------- Installing over a living tree ----------

  lemma SpawnAndRaise(s: State) returns (a: State, b: State, c: State)
    requires Alone(s, Launched, None) && s.custody == Custody(None, None, map[], {})
    ensures Do(s, SpawnStep(1, Enter)) == Some(a) && Do(a, SpawnStep(1, Spawn)) == Some(b)
    ensures Do(b, RequestStep(ClickShutdown)) == Some(c)
    ensures Discardable(c, Spawned)
  {
    a := SetGate(SetAttempt(s, 1, Spawning), Some(1));
    b := SetProcess(SetAttempt(a, 1, Spawned), 1, Process(false, false, false, false));
    c := b.(phase := b.phase.(shuttingDown := true, shutdownPending := true));
    assert c.agents == map[1 := Attempt(Spawned)];
  }

  predicate Discardable(s: State, pc: AttemptPc) {
    && s.phase == Phase(1, true, true, true, None) && s.agents == map[1 := Attempt(pc)] && GatesFree(s)
    && s.custody == Custody(None, Some(1), map[1 := Process(false, false, false, false)], {})
  }

  lemma DiscardAndEnter(s: State) returns (a: State, b: State, c: State)
    requires Discardable(s, Spawned)
    ensures Do(s, SpawnStep(1, Recheck)) == Some(a) && Do(a, SpawnStep(1, DiscardEnds(false))) == Some(b)
    ensures Do(b, RequestStep(EnterShutdown)) == Some(c) && ShuttingDown(c, ShutdownQueued, None)
  {
    a := SetAttempt(s, 1, Discarding);
    b := SetGate(SetAttempt(Abandon(a, 1), 1, Failing), None);
    c := RequestDo(b, EnterShutdown).value;
    assert c.custody.processes == map[1 := Process(false, false, false, true)];
  }

  predicate ShuttingDown(s: State, pc: ShutdownPc, gate: Option<nat>) {
    && 2 in s.agents && s.agents[2] == Shutdown(pc)
    && s.custody == Custody(None, gate, map[1 := Process(false, false, false, true)], {})
  }

  lemma StopNothing(s: State) returns (a: State, b: State, c: State)
    requires ShuttingDown(s, ShutdownQueued, None)
    ensures Do(s, ShutdownStep(2, ShutdownEnter)) == Some(a) && Do(a, ShutdownStep(2, ShutdownTake)) == Some(b)
    ensures Do(b, ShutdownStep(2, ShutdownStopEnds(true))) == Some(c) && ShuttingDown(c, ShutdownStopped(true), Some(2))
  {
    a := SetGate(SetShutdown(s, 2, ShutdownTaking), Some(2));
    b := SetSlot(SetShutdown(a, 2, ShutdownStopping(None)), None);
    c := SetShutdown(b, 2, ShutdownStopped(true));
  }

  lemma InstallAnyway(s: State) returns (a: State, b: State)
    requires ShuttingDown(s, ShutdownStopped(true), Some(2))
    ensures Do(s, ShutdownStep(2, ShutdownLeave)) == Some(a) && Do(a, ShutdownStep(2, ShutdownInstall)) == Some(b)
    ensures ShuttingDown(b, ShutdownInstalling, None)
  {
    a := SetGate(SetShutdown(s, 2, ShutdownReleased(true)), None);
    b := SetShutdown(a, 2, ShutdownInstalling);
  }

  lemma LivingTree(s: State)
    requires ShuttingDown(s, ShutdownInstalling, None)
    ensures 2 in s.agents && s.agents[2] == Shutdown(ShutdownInstalling) && 1 in s.custody.processes
    ensures !s.custody.processes[1].leaderExited && !s.custody.processes[1].confirmed && s.custody.processes[1].abandoned
  {
  }

  /** A run in which `install_staged` is called while an abandoned tree still lives. */
  lemma InstallOverLivingTreeHappens()
    ensures exists steps, s ::
              && Run(steps) == Some(s) && 2 in s.agents && s.agents[2] == Shutdown(ShutdownInstalling)
              && 1 in s.custody.processes && s.custody.processes[1].abandoned
              && !s.custody.processes[1].leaderExited && !s.custody.processes[1].confirmed
  {
    hide Run, Do, Alone, Discardable, ShuttingDown;
    var steps, s := Begin();
    var a, b, c := SpawnAndRaise(s);
    steps := Three(steps, s, SpawnStep(1, Enter), a, SpawnStep(1, Spawn), b, RequestStep(ClickShutdown), c);
    var d, e, f := DiscardAndEnter(c);
    steps := Three(steps, c, SpawnStep(1, Recheck), d, SpawnStep(1, DiscardEnds(false)), e,
                   RequestStep(EnterShutdown), f);
    var g, h, i := StopNothing(f);
    steps := Three(steps, f, ShutdownStep(2, ShutdownEnter), g, ShutdownStep(2, ShutdownTake), h,
                   ShutdownStep(2, ShutdownStopEnds(true)), i);
    var j, k := InstallAnyway(i);
    OneMore(steps, i, ShutdownStep(2, ShutdownLeave), j);
    OneMore(steps + [ShutdownStep(2, ShutdownLeave)], j, ShutdownStep(2, ShutdownInstall), k);
    LivingTree(k);
  }
}
