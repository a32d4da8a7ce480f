/** A run of the update system that gets from a check to an installation. */
module UpdateWitness {
  import opened Bytes
  import opened UpdateController
  import opened UpdateSystem

  lemma {:induction false} OneMoreStep(s: System, steps: seq<(Step, Moment)>, step: Step, m: Moment)
    requires Run(s, steps).Some? && Do(Run(s, steps).value, step, m).Some?
    ensures Run(s, steps + [(step, m)]) == Do(Run(s, steps).value, step, m)
    decreases |steps|
  {
    hide Do;
    var all := steps + [(step, m)];
    if steps == [] {
      assert all[0] == (step, m) && all[1..] == [];
    } else {
      assert all[0] == steps[0] && all[1..] == steps[1..] + [(step, m)];
      OneMoreStep(Do(s, steps[0].0, steps[0].1).value, steps[1..], step, m);
    }
  }

  lemma Two(start: System, steps: seq<(Step, Moment)>, s: System, x: Step, a: System, y: Step, b: System, m: Moment)
    returns (more: seq<(Step, Moment)>)
    requires Run(start, steps) == Some(s) && Do(s, x, m) == Some(a) && Do(a, y, m) == Some(b)
    ensures Run(start, more) == Some(b)
  {
    hide Run, Do;
    OneMoreStep(start, steps, x, m);
    more := steps + [(x, m)];
    OneMoreStep(start, more, y, m);
    more := more + [(y, m)];
  }

  predicate Idling(s: System, running: real) {
    && s.controller.running == running && s.controller.staged.None? && s.controller.snapshot.automaticDownload
    && s.pending.None? && s.installer.None? && s.repository == Opened(None, None)
  }

  lemma ReachCheck(running: real, m: Moment) returns (s: System, steps: seq<(Step, Moment)>)
    ensures Run(Start(running, None, Opened(None, None), m), steps) == Some(s)
    ensures Idling(s, running) && s.holder == Some(CheckBegun)
  {
    var s0 := Start(running, None, Opened(None, None), m);
    var s1 := Do(s0, Outside(BecomeReady), m).value;
    var effects := [CheckStable, ScheduleCheck(CHECK_INTERVAL)];
    assert effects[1..] == [ScheduleCheck(CHECK_INTERVAL)];
    assert CheckTask in TasksOf(effects);
    s := Do(s1, Acquire(CheckTask), m).value;
    assert Run(s0, []) == Some(s0);
    hide Do, Run, Start;
    OneMoreStep(s0, [], Outside(BecomeReady), m);
    steps := [] + [(Outside(BecomeReady), m)];
    OneMoreStep(s0, steps, Acquire(CheckTask), m);
    steps := steps + [(Acquire(CheckTask), m)];
  }

  lemma NewerIsAvailable(c: Controller, release: Release, m: Moment)
    requires release.version.Semver? && release.version.order > c.running && c.staged.None?
    requires c.snapshot.automaticDownload
    ensures var (after, result) := Handled(c, CheckSucceeded(Some(release)), m);
            after.staged.None? && after.release == Some(release) && result == Accepted([StartDownload(release)])
  {
  }

  /** A release is found, prepared, made available, and its download takes the gate. */
  lemma FindMoves(s: System, running: real, newer: real, m: Moment) returns (s1: System, s2: System, s3: System, t: System)
    requires newer > running && Idling(s, running) && s.holder == Some(CheckBegun)
    ensures var release := Release(Semver(newer), "");
            && Do(s, AnswerCheck(Found(release)), m) == Some(s1) && Do(s1, Prepare(ClearOk), m) == Some(s2)
            && Do(s2, DispatchChecked, m) == Some(s3) && Do(s3, Acquire(DownloadTask(release)), m) == Some(t)
            && Downloadable(t, release, newer)
  {
    var release := Release(Semver(newer), "");
    s1 := Hold(s, CheckFound(release)).(pending := Some(release.version));
    s2 := Hold(s1, CheckPrepared(CheckSucceeded(Some(release))));
    s3 := Unhold(Dispatch(s2, CheckSucceeded(Some(release)), m));
    NewerIsAvailable(s.controller, release, m);
    hide Handled, DownloadDo;
    assert DownloadTask(release) in TasksOf([StartDownload(release)]);
    t := Do(s3, Acquire(DownloadTask(release)), m).value;
  }

  predicate Downloadable(s: System, release: Release, newer: real) {
    && release.version == Semver(newer)
    && s.controller.staged.None? && s.controller.release == Some(release) && s.pending == Some(release.version)
    && s.repository == Opened(None, None) && s.holder == Some(DownloadBegun(release)) && s.installer.None?
  }

  lemma StageMoves(s: System, release: Release, newer: real, m: Moment) returns (s1: System, s2: System, t: System)
    requires Downloadable(s, release, newer)
    ensures Do(s, BeginDownload, m) == Some(s1) && Do(s1, Stage(Promoted), m) == Some(s2)
    ensures Do(s2, DispatchStaged, m) == Some(t) && t.controller.snapshot.state.Staged? &&
            t.repository == Opened(Some(newer), Some(newer)) && t.installer.None?
  {
    s1 := Hold(Dispatch(s, DownloadStarted, m), DownloadRunning(release.version));
    s2 := Hold(s1, StageEnded(release.version, true)).(repository := Opened(Some(newer), Some(newer)));
    t := Unhold(Dispatch(s2, DownloadSucceeded, m));
  }

  lemma InstallMoves(s: System, newer: real, m: Moment) returns (s1: System, s2: System, t: System)
    requires s.controller.snapshot.state.Staged? && s.repository == Opened(Some(newer), Some(newer)) && s.installer.None?
    ensures Do(s, LookAtRepository, m) == Some(s1) && Do(s1, LookAtSnapshot, m) == Some(s2)
    ensures Do(s2, Install(true), m) == Some(t) && t.installer == Some(Gone(Some(newer)))
  {
    s1 := s.(installer := Some(Looked(true)));
    s2 := s.(installer := Some(Allowed));
    t := s.(installer := Some(Gone(Some(newer))));
  }

  /** Every newer version can be found, downloaded, staged, and handed out for installation. */
  lemma InstallIsReachable(running: real, newer: real, m: Moment)
    requires newer > running
    ensures exists steps ::
              Run(Start(running, None, Opened(None, None), m), steps).Some? &&
              Run(Start(running, None, Opened(None, None), m), steps).value.installer == Some(Gone(Some(newer)))
  {
    hide Run, Do, Start, Downloadable, Idling;
    var start := Start(running, None, Opened(None, None), m);
    var release := Release(Semver(newer), "");
    var s0, steps := ReachCheck(running, m);
    var s1, s2, s3, s4 := FindMoves(s0, running, newer, m);
    steps := Two(start, steps, s0, AnswerCheck(Found(release)), s1, Prepare(ClearOk), s2, m);
    steps := Two(start, steps, s2, DispatchChecked, s3, Acquire(DownloadTask(release)), s4, m);
    var s5, s6, s7 := StageMoves(s4, release, newer, m);
    var s8, s9, s10 := InstallMoves(s7, newer, m);
    steps := Two(start, steps, s4, BeginDownload, s5, Stage(Promoted), s6, m);
    steps := Two(start, steps, s6, DispatchStaged, s7, LookAtRepository, s8, m);
    steps := Two(start, steps, s8, LookAtSnapshot, s9, Install(true), s10, m);
    assert Run(start, steps) == Some(s10);
  }
}
