/** What holds over whole histories of the update state machine. */
module UpdateHistory {
  import opened Bytes
  import opened UpdateController

  datatype Event = Event(input: Input, moment: Moment)

  function After(c: Controller, e: Event): Controller {
    Handled(c, e.input, e.moment).0
  }

  function Answer(c: Controller, e: Event): Result {
    Handled(c, e.input, e.moment).1
  }

  function Effects(c: Controller, e: Event): seq<Effect> {
    if Answer(c, e).Accepted? then Answer(c, e).effects else []
  }

  function Run(c: Controller, events: seq<Event>): Controller
    decreases |events|
  {
    if events == [] then c else Run(After(c, events[0]), events[1..])
  }

  // ---------- No downgrade ----------

  predicate Newer(c: Controller, v: VersionText) {
    v.Semver? && v.order > c.running
  }

  /**
   Every version the controller holds or shows exceeds the running one; a staged state names exactly the staged version;
   what is available or downloading is the current release; a failure is shown only while nothing is staged.
   */
  predicate Inv(c: Controller) {
    && (c.staged.Some? ==> c.staged.value > c.running)
    && (c.release.Some? ==> Newer(c, c.release.value.version))
    && (c.staged.Some? && c.release.Some? ==> c.release.value.version == Semver(c.staged.value))
    && match c.snapshot.state {
         case Available(v, notes) => c.release == Some(Release(v, notes)) && c.staged.None?
         case Downloading(v, notes, _) => c.release == Some(Release(v, notes))
         case Staged(v, _) => c.staged.Some? && v == Semver(c.staged.value)
         case Failed(_, _, _) => c.staged.None?
         case _ => true
       }
    && (c.pending.Some? ==> c.pending.value.automaticRetries <= MAX_AUTOMATIC_RETRIES)
  }

  /** The invariant after a transition, and the release that its effects download. */
  ghost predicate Sound(c: Controller, r: (Controller, Result)) {
    && Inv(r.0) && r.0.running == c.running
    && (r.1.Accepted? ==> forall x :: StartDownload(x) in r.1.effects ==> Some(x) == r.0.release)
  }

  lemma CheckResultIsSound(c: Controller, found: Option<Release>)
    requires Inv(c)
    ensures Sound(c, AcceptCheckResult(c, found))
  {
    if found.None? || found.value.version.Malformed? {
    } else if found.value.version.order <= c.running {
    } else if c.staged.Some? && found.value.version.order <= c.staged.value {
    } else if c.snapshot.automaticDownload {
    } else {
    }
  }

  lemma FailureIsSound(c: Controller, operation: Operation, message: string, retryable: bool)
    requires Inv(c)
    ensures Sound(c, Respond(AcceptFailure(c, operation, message, retryable)))
  {
  }

  lemma StartCheckIsSound(c: Controller, scheduleNext: bool, now: nat)
    requires Inv(c)
    ensures Sound(c, Respond(StartCheck(c, scheduleNext, now)))
  {
  }

  lemma DownloadIsSound(c: Controller, progress: Progress)
    requires Inv(c)
    ensures Sound(c, (ShowProgress(c, progress), Accepted([])))
    ensures Sound(c, (FinishDownload(c), Accepted([])))
  {
  }

  lemma ReplayIsSound(c: Controller)
    requires Inv(c)
    ensures Sound(c, Respond(Replay(c)))
  {
  }

  lemma RetryIsSound(c: Controller, now: nat)
    requires Inv(c)
    ensures Sound(c, Respond(RetryPending(c))) && Sound(c, Respond(RetryByUser(c, now)))
  {
    hide Replay, StartCheck;
    assert Inv(c.(pending := None));
    ReplayIsSound(c);
    ReplayIsSound(c.(pending := None));
    StartCheckIsSound(c.(pending := None), false, now);
  }

  lemma SettingIsSound(c: Controller, enabled: bool, m: Moment)
    requires Inv(c)
    ensures Sound(c, Transition(c, SetAutomaticDownload(enabled), m))
  {
    hide Replay;
    ReplayIsSound(c.(snapshot := c.snapshot.(automaticDownload := enabled)));
  }

  lemma TransitionIsSound(c: Controller, input: Input, m: Moment)
    requires Inv(c)
    ensures Sound(c, Transition(c, input, m))
  {
    hide AcceptCheckResult, AcceptFailure, StartCheck, FinishDownload, ShowProgress, RetryPending, RetryByUser, Replay;
    match input
    case RecoverStaged(_) =>
    case BecomeReady => StartCheckIsSound(c.(ready := true), true, m.now);
    case PeriodicCheckDue => StartCheckIsSound(c, true, m.now);
    case ManualCheck => StartCheckIsSound(c, false, m.now);
    case CheckSucceeded(found) => CheckResultIsSound(c, found);
    case CheckFailed(message, retryable) => FailureIsSound(c, Check, message, retryable);
    case StagingDiscardFailed =>
    case SetAutomaticDownload(enabled) => SettingIsSound(c, enabled, m);
    case DownloadStarted => DownloadIsSound(c, UnknownTotal(0));
    case DownloadAdvanced(progress) => DownloadIsSound(c, progress);
    case DownloadSucceeded => DownloadIsSound(c, UnknownTotal(0));
    case DownloadFailed(message, retryable) => FailureIsSound(c, Download, message, retryable);
    case UserRetry => RetryIsSound(c, m.now);
    case RetryDue => RetryIsSound(c, m.now);
  }

  lemma InvKept(c: Controller, e: Event)
    requires Inv(c)
    ensures Inv(After(c, e)) && After(c, e).running == c.running
    ensures forall r :: StartDownload(r) in Effects(c, e) ==> Some(r) == After(c, e).release
  {
    hide Transition;
    TransitionIsSound(c, e.input, e.moment);
  }

  lemma {:induction false} RunKeepsInv(c: Controller, events: seq<Event>)
    requires Inv(c)
    ensures Inv(Run(c, events)) && Run(c, events).running == c.running
    decreases |events|
  {
    if events != [] {
      InvKept(c, events[0]);
      RunKeepsInv(After(c, events[0]), events[1..]);
    }
  }

  /** In every history from the start, nothing held, shown or sent for download is a downgrade. */
  lemma NoDowngrade(running: real, preference: Option<bool>, events: seq<Event>, next: Event)
    ensures var c := Run(Initial(running, preference), events);
            && Inv(c) && c.running == running
            && (forall r :: StartDownload(r) in Effects(c, next) ==> r.version.Semver? && r.version.order > running)
  {
    RunKeepsInv(Initial(running, preference), events);
    InvKept(Run(Initial(running, preference), events), next);
  }

  /** The sequence grows by one on success; an error leaves the whole snapshot as it was, and errors are exactly these. */
  lemma SequenceAndErrors(c: Controller, e: Event)
    ensures Answer(c, e).Accepted? ==> After(c, e).snapshot.sequence == c.snapshot.sequence + 1
    ensures Answer(c, e).Rejected? ==> After(c, e).snapshot == c.snapshot
    ensures Answer(c, e).Rejected? <==>
            || (e.input.RecoverStaged? && e.input.version.Malformed?)
            || (e.input.CheckSucceeded? && e.input.found.Some? && e.input.found.value.version.Malformed?)
            || (e.input.SetAutomaticDownload? && !e.moment.saveOk)
  {
    match e.input
    case RecoverStaged(_) =>
    case BecomeReady =>
    case PeriodicCheckDue =>
    case ManualCheck =>
    case CheckSucceeded(_) =>
    case CheckFailed(_, _) =>
    case StagingDiscardFailed =>
    case SetAutomaticDownload(_) =>
    case DownloadStarted =>
    case DownloadAdvanced(_) =>
    case DownloadSucceeded =>
    case DownloadFailed(_, _) =>
    case UserRetry =>
    case RetryDue =>
  }

  // ---------- Retry budget ----------

  /** The delays of the automatic retries of an operation among these effects. */
  function Delays(effects: seq<Effect>, operation: Operation): seq<nat> {
    if effects == [] then []
    else if effects[0].ScheduleRetry? && effects[0].operation == operation then
      [effects[0].after] + Delays(effects[1..], operation)
    else Delays(effects[1..], operation)
  }

  function AllDelays(c: Controller, events: seq<Event>, operation: Operation): seq<nat>
    decreases |events|
  {
    if events == [] then []
    else Delays(Effects(c, events[0]), operation) + AllDelays(After(c, events[0]), events[1..], operation)
  }

  /** The event clears the pending retry of the operation or replaces it by one of the other operation. */
  predicate EndsEpisode(c: Controller, e: Event, operation: Operation) {
    && c.pending.Some? && c.pending.value.operation == operation
    && (After(c, e).pending.None? || After(c, e).pending.value.operation != operation)
  }

  predicate OneEpisode(c: Controller, events: seq<Event>, operation: Operation)
    decreases |events|
  {
    events == [] || (!EndsEpisode(c, events[0], operation) && OneEpisode(After(c, events[0]), events[1..], operation))
  }

  function Power(n: nat): (p: nat)
    ensures p >= 1
  {
    if n == 0 then 1 else 2 * Power(n - 1)
  }

  /** The delays of the retries numbered `from` + 1 to `from` + `n`. */
  function PowersFrom(from: nat, n: nat): seq<nat>
    decreases n
  {
    if n == 0 then [] else [Power(from)] + PowersFrom(from + 1, n - 1)
  }

  function Sum(delays: seq<nat>): nat {
    if delays == [] then 0 else delays[0] + Sum(delays[1..])
  }

  lemma NoDelays(effects: seq<Effect>, operation: Operation)
    requires forall i :: 0 <= i < |effects| ==> !effects[i].ScheduleRetry?
    ensures Delays(effects, operation) == []
  {
  }

  lemma FailureSchedules(c: Controller, failed: Operation, message: string, retryable: bool, operation: Operation)
    requires Inv(c) && (c.pending.Some? && c.pending.value.operation == operation ==> failed == operation)
    ensures var (after, effects) := AcceptFailure(c, failed, message, retryable);
            var (n, m) := (Retries(c, operation), Retries(after, operation));
            n <= m <= MAX_AUTOMATIC_RETRIES && m <= n + 1 &&
            Delays(effects, operation) == if m == n then [] else [Power(n)]
  {
    assert Power(0) == 1 && Power(1) == 2 && Power(2) == 4;
    var effects := AcceptFailure(c, failed, message, retryable).1;
    if effects != [] {
      assert effects[1..] == [];
    }
  }

  lemma OthersScheduleNothing(c: Controller, e: Event)
    requires !e.input.CheckFailed? && !e.input.DownloadFailed?
    ensures forall i :: 0 <= i < |Effects(c, e)| ==> !Effects(c, e)[i].ScheduleRetry?
  {
    match e.input
    case RecoverStaged(_) =>
    case BecomeReady =>
    case PeriodicCheckDue =>
    case ManualCheck =>
    case CheckSucceeded(_) =>
    case StagingDiscardFailed =>
    case SetAutomaticDownload(_) =>
    case DownloadStarted =>
    case DownloadAdvanced(_) =>
    case DownloadSucceeded =>
    case UserRetry =>
    case RetryDue =>
  }

  lemma OthersKeepOrClear(c: Controller, e: Event)
    requires !e.input.CheckFailed? && !e.input.DownloadFailed?
    ensures After(c, e).pending.None? || After(c, e).pending == c.pending
  {
    match e.input
    case RecoverStaged(_) =>
    case BecomeReady =>
    case PeriodicCheckDue =>
    case ManualCheck =>
    case CheckSucceeded(_) =>
    case StagingDiscardFailed =>
    case SetAutomaticDownload(_) =>
    case DownloadStarted =>
    case DownloadAdvanced(_) =>
    case DownloadSucceeded =>
    case UserRetry =>
    case RetryDue =>
  }

  lemma FailureEvent(c: Controller, e: Event)
    requires e.input.CheckFailed? || e.input.DownloadFailed?
    ensures var (after, effects) :=
              AcceptFailure(c, if e.input.CheckFailed? then Check else Download, e.input.message, e.input.retryable);
            Effects(c, e) == effects && After(c, e).pending == after.pending
  {
    hide AcceptFailure;
    match e.input
    case CheckFailed(_, _) =>
    case DownloadFailed(_, _) =>
    case _ =>
  }

  lemma RetryStep(c: Controller, e: Event, operation: Operation)
    requires Inv(c) && !EndsEpisode(c, e, operation)
    ensures var (n, m) := (Retries(c, operation), Retries(After(c, e), operation));
            n <= m <= MAX_AUTOMATIC_RETRIES && m <= n + 1 &&
            Delays(Effects(c, e), operation) == if m == n then [] else [Power(n)]
  {
    hide Effects, After, Delays;
    if e.input.CheckFailed? || e.input.DownloadFailed? {
      var failed := if e.input.CheckFailed? then Check else Download;
      FailureEvent(c, e);
      FailureSwitches(c, failed, e.input.message, e.input.retryable);
      FailureSchedules(c, failed, e.input.message, e.input.retryable, operation);
    } else {
      OthersScheduleNothing(c, e);
      OthersKeepOrClear(c, e);
      NoDelays(Effects(c, e), operation);
    }
  }

  lemma FailureSwitches(c: Controller, failed: Operation, message: string, retryable: bool)
    ensures var after := AcceptFailure(c, failed, message, retryable).0;
            after.pending.Some? && after.pending.value.operation == failed
  {
  }

  lemma {:induction false} JoinPowers(from: nat, a: nat, b: nat)
    ensures PowersFrom(from, a) + PowersFrom(from + a, b) == PowersFrom(from, a + b)
    decreases a
  {
    if a == 0 {
      assert PowersFrom(from, 0) + PowersFrom(from, b) == PowersFrom(from, b);
    } else {
      JoinPowers(from + 1, a - 1, b);
    }
  }

  /** Within one episode the automatic retries of the operation have consecutive numbers, up to three. */
  lemma {:induction false} EpisodeDelays(c: Controller, events: seq<Event>, operation: Operation)
    requires Inv(c) && OneEpisode(c, events, operation)
    ensures var (n, m) := (Retries(c, operation), Retries(Run(c, events), operation));
            n <= m <= MAX_AUTOMATIC_RETRIES && AllDelays(c, events, operation) == PowersFrom(n, m - n)
    decreases |events|
  {
    hide After, Effects, Inv, Retries, EndsEpisode;
    if events == [] {
      RetriesBounded(c, operation);
    } else {
      var after := After(c, events[0]);
      RetryStep(c, events[0], operation);
      InvKept(c, events[0]);
      EpisodeDelays(after, events[1..], operation);
      var (n, m) := (Retries(c, operation), Retries(Run(c, events), operation));
      var k := Retries(after, operation);
      assert PowersFrom(n, 1) == [Power(n)] + PowersFrom(n + 1, 0);
      assert Delays(Effects(c, events[0]), operation) == PowersFrom(n, k - n);
      JoinPowers(n, k - n, m - k);
    }
  }

  lemma RetriesBounded(c: Controller, operation: Operation)
    requires Inv(c)
    ensures Retries(c, operation) <= MAX_AUTOMATIC_RETRIES
  {
  }

  lemma {:induction false} SumOfPowers(from: nat, n: nat)
    ensures Sum(PowersFrom(from, n)) == Power(from + n) - Power(from)
    decreases n
  {
    if n != 0 {
      SumOfPowers(from + 1, n - 1);
      assert PowersFrom(from, n)[1..] == PowersFrom(from + 1, n - 1);
    }
  }

  /**
   The retry budget: however long an episode is, it schedules at most three automatic retries, delayed by consecutive
   powers of two, seven seconds in all.
   */
  lemma RetryBudget(c: Controller, events: seq<Event>, operation: Operation)
    requires Inv(c) && OneEpisode(c, events, operation)
    ensures var delays := AllDelays(c, events, operation);
            |delays| <= 3 && Sum(delays) <= 7 &&
            forall i :: 0 <= i < |delays| ==> delays[i] == Power(Retries(c, operation) + i)
  {
    hide Inv, OneEpisode, AllDelays, Run, Power, PowersFrom, Sum, Retries;
    EpisodeDelays(c, events, operation);
    var (n, m) := (Retries(c, operation), Retries(Run(c, events), operation));
    SumOfPowers(n, m - n);
    SmallPower(m);
    PowersAt(n, m - n);
  }

  lemma SmallPower(n: nat)
    requires n <= 3
    ensures Power(n) <= 8
  {
    assert Power(0) == 1 && Power(1) == 2 && Power(2) == 4 && Power(3) == 8;
  }

  lemma {:induction false} PowersAt(from: nat, n: nat)
    ensures |PowersFrom(from, n)| == n && forall i :: 0 <= i < n ==> PowersFrom(from, n)[i] == Power(from + i)
    decreases n
  {
    if n != 0 {
      PowersAt(from + 1, n - 1);
    }
  }

  // ---------- Overlapping operations ----------

  predicate Starts(effects: seq<Effect>) {
    exists x :: x in effects && (x.CheckStable? || x.StartDownload?)
  }

  predicate Completes(input: Input) {
    input.CheckSucceeded? || input.CheckFailed? || input.StagingDiscardFailed? || input.DownloadSucceeded? ||
    input.DownloadFailed?
  }

  /** An operation is started by an event that ends none, while the controller counts one as active. */
  predicate Overlaps(c: Controller, e: Event) {
    c.active && !Completes(e.input) && Starts(Effects(c, e))
  }

  predicate CanReplay(c: Controller, operation: Operation) {
    operation == Check || c.release.Some?
  }

  /**
   At most one operation at a time is not guaranteed: a due retry timer, a user retry from a retryable failure, and
   switching automatic download on while an update is available do not look at `operation_active`. These are the only
   ways.
   */
  lemma OverlapExactly(c: Controller, e: Event)
    requires c.active
    ensures Overlaps(c, e) <==>
            || (e.input.RetryDue? && c.pending.Some? && CanReplay(c, c.pending.value.operation))
            || (e.input.UserRetry? && c.snapshot.state.Failed? && c.snapshot.state.retryable &&
                CanReplay(c, c.snapshot.state.operation))
            || (e.input.SetAutomaticDownload? && e.input.enabled && e.moment.saveOk && c.snapshot.state.Available? &&
                c.release.Some?)
  {
    var effects := Effects(c, e);
    assert effects != [] && (effects[0].CheckStable? || effects[0].StartDownload?) ==> effects[0] in effects;
    match e.input
    case RecoverStaged(_) =>
    case BecomeReady =>
    case PeriodicCheckDue =>
    case ManualCheck =>
    case CheckSucceeded(_) =>
    case CheckFailed(_, _) =>
    case StagingDiscardFailed =>
    case SetAutomaticDownload(_) =>
    case DownloadStarted =>
    case DownloadAdvanced(_) =>
    case DownloadSucceeded =>
    case DownloadFailed(_, _) =>
    case UserRetry =>
    case RetryDue =>
  }

  /** Two failed checks leave two timers; when both fire, the second check starts while the first is under way. */
  lemma OverlapHappens(m: Moment)
    ensures var c := Run(Initial(1.0, None), [
              Event(BecomeReady, m), Event(CheckFailed("", true), m), Event(ManualCheck, m),
              Event(CheckFailed("", true), m), Event(RetryDue, m)]);
            Overlaps(c, Event(RetryDue, m))
  {
    var c0 := Initial(1.0, None);
    var c1 := After(c0, Event(BecomeReady, m));
    var c2 := After(c1, Event(CheckFailed("", true), m));
    var c3 := After(c2, Event(ManualCheck, m));
    var c4 := After(c3, Event(CheckFailed("", true), m));
    var c5 := After(c4, Event(RetryDue, m));
    RunFive(c0, Event(BecomeReady, m), Event(CheckFailed("", true), m), Event(ManualCheck, m),
            Event(CheckFailed("", true), m), Event(RetryDue, m));
    assert c4.pending == Some(PendingRetry(Check, 1));
    OverlapExactly(c5, Event(RetryDue, m));
  }

  lemma RunCons(c: Controller, e: Event, rest: seq<Event>)
    ensures Run(c, [e] + rest) == Run(After(c, e), rest)
  {
    assert ([e] + rest)[1..] == rest;
  }

  lemma RunFive(c: Controller, e1: Event, e2: Event, e3: Event, e4: Event, e5: Event)
    ensures Run(c, [e1, e2, e3, e4, e5]) == After(After(After(After(After(c, e1), e2), e3), e4), e5)
  {
    var c1 := After(c, e1);
    var c2 := After(c1, e2);
    var c3 := After(c2, e3);
    var c4 := After(c3, e4);
    var c5 := After(c4, e5);
    assert Run(c5, []) == c5;
    hide After, Run;
    assert [e1, e2, e3, e4, e5] == [e1] + [e2, e3, e4, e5] && [e2, e3, e4, e5] == [e2] + [e3, e4, e5];
    assert [e3, e4, e5] == [e3] + [e4, e5] && [e4, e5] == [e4] + [e5] && [e5] == [e5] + [];
    RunCons(c, e1, [e2, e3, e4, e5]);
    RunCons(c1, e2, [e3, e4, e5]);
    RunCons(c2, e3, [e4, e5]);
    RunCons(c3, e4, [e5]);
    RunCons(c4, e5, []);
  }

  // ---------- Up to date, yet staged ----------

  predicate StagedBehindUpToDate(c: Controller) {
    c.snapshot.state.UpToDate? && c.staged.Some?
  }

  /**
   The state can be "up to date" although an update is staged: exactly when a check reports no release above the running
   version while one is staged.
   */
  lemma StagedBehindUpToDateExactly(c: Controller, e: Event)
    requires !StagedBehindUpToDate(c)
    ensures StagedBehindUpToDate(After(c, e)) <==>
            e.input.CheckSucceeded? && c.staged.Some? &&
            (e.input.found.None? ||
             (e.input.found.value.version.Semver? && e.input.found.value.version.order <= c.running))
  {
    match e.input
    case RecoverStaged(_) =>
    case BecomeReady =>
    case PeriodicCheckDue =>
    case ManualCheck =>
    case CheckSucceeded(_) =>
    case CheckFailed(_, _) =>
    case StagingDiscardFailed =>
    case SetAutomaticDownload(_) =>
    case DownloadStarted =>
    case DownloadAdvanced(_) =>
    case DownloadSucceeded =>
    case DownloadFailed(_, _) =>
    case UserRetry =>
    case RetryDue =>
  }

  lemma StagedBehindUpToDateHappens(m: Moment)
    ensures var recovered := After(Initial(1.0, None), Event(RecoverStaged(Semver(2.0)), m));
            var checking := After(recovered, Event(BecomeReady, m));
            StagedBehindUpToDate(After(checking, Event(CheckSucceeded(None), m)))
  {
    var recovered := After(Initial(1.0, None), Event(RecoverStaged(Semver(2.0)), m));
    assert recovered.staged == Some(2.0) && recovered.snapshot.state.Staged?;
    var checking := After(recovered, Event(BecomeReady, m));
    assert checking.staged == Some(2.0) && checking.snapshot.state == Checking;
    StagedBehindUpToDateExactly(checking, Event(CheckSucceeded(None), m));
  }
}
