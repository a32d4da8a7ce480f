/** Bounded graceful and forced stopping of a process tree (src-tauri/src/lifecycle.rs:31-64). */
module StopProcess {
  datatype Probe = Exited | Running | Broken

  /** What one `has_exited`, `force_kill_tree` or `reap` call answered. */
  datatype Call = Requested(ok: bool) | Probed(answer: Probe) | Killed(ok: bool) | Reaped(ok: bool)

  /**
   An arbitrary process behind the control interface: the answers to its calls, and the time that passes besides the
   sleeping before each reading of the monotone clock.
   */
  datatype Environment = Environment(
    requestOk: bool, killOk: bool, reapOk: bool, probe: nat -> Probe, lag: nat -> nat)

  datatype WaitResult = Confirmed | TimedOut | Error
  datatype StopResult = Graceful | Forced | Failed

  // Durations in nanoseconds.
  const POLL: nat := 25_000_000

  /** The sleep between two probes: 25 milliseconds, or the whole timeout when that is shorter. */
  function Step(timeout: nat): (d: nat)
    ensures d <= timeout && d <= 25_000_000 && (d == timeout || d == 25_000_000)
  {
    if POLL < timeout then POLL else timeout
  }

  function CeilDiv(a: nat, b: nat): nat
    requires 0 < b
  {
    (a + b - 1) / b
  }

  /** The most probes one wait can make. */
  function MaxProbes(timeout: nat): (n: nat)
    ensures n >= 1
  {
    if timeout == 0 then 1 else CeilDiv(timeout, Step(timeout)) + 1
  }

  lemma CeilCovers(a: nat, b: nat)
    requires 0 < b
    ensures a <= CeilDiv(a, b) * b
  {
    assert (a + b - 1) == (a + b - 1) / b * b + (a + b - 1) % b;
  }

  lemma Monotone(a: nat, b: nat, d: nat)
    requires a <= b
    ensures a * d <= b * d
  {
  }

  lemma SleepsAreBounded(timeout: nat, sleeps: nat)
    requires 0 < timeout && 0 < sleeps && (sleeps - 1) * Step(timeout) < timeout
    ensures sleeps <= CeilDiv(timeout, Step(timeout))
  {
    hide CeilDiv;
    var q := CeilDiv(timeout, Step(timeout));
    CeilCovers(timeout, Step(timeout));
    if q <= sleeps - 1 {
      Monotone(q, sleeps - 1, Step(timeout));
    }
  }

  /** What the clock reads after probe `k` of a wait: the time that passed so far, and the sleeps before the probe. */
  function Clock(env: Environment, first: nat, timeout: nat, k: nat): nat {
    if k == 0 then env.lag(first) else Clock(env, first, timeout, k - 1) + Step(timeout) + env.lag(first + k)
  }

  lemma {:induction false} ClockCoversSleeps(env: Environment, first: nat, timeout: nat, k: nat)
    ensures k * Step(timeout) <= Clock(env, first, timeout, k)
  {
    if k > 0 {
      ClockCoversSleeps(env, first, timeout, k - 1);
      assert k * Step(timeout) == (k - 1) * Step(timeout) + Step(timeout);
    }
  }

  /** After this probe the wait goes on: the tree runs and the clock is before the timeout. */
  predicate GoesOn(env: Environment, first: nat, timeout: nat, k: nat) {
    env.probe(first + k) == Running && Clock(env, first, timeout, k) < timeout
  }

  /**
   `n` probes starting with number `first`; the wait goes on after all but the last, and does not after the last: it
   found the tree exited, or failed, or found it running when the clock had reached the timeout.
   */
  ghost predicate WaitTrace(env: Environment, first: nat, timeout: nat, n: nat, r: WaitResult) {
    && n >= 1
    && (forall k :: 0 <= k < n - 1 ==> GoesOn(env, first, timeout, k))
    && !GoesOn(env, first, timeout, n - 1)
    && env.probe(first + n - 1) == match r case Confirmed => Exited case TimedOut => Running case Error => Broken
  }

  /** Some probe finds the tree exited, and the wait gets to it. */
  ghost predicate SeenInTime(env: Environment, first: nat, timeout: nat) {
    exists k: nat :: SeenBy(env, first, timeout, k)
  }

  /** The wait gets to probe `k`, which finds the tree exited. */
  ghost predicate SeenBy(env: Environment, first: nat, timeout: nat, k: nat) {
    env.probe(first + k) == Exited && forall j :: 0 <= j < k ==> GoesOn(env, first, timeout, j)
  }

  /** The environment determines the wait. */
  lemma WaitIsDetermined(
    env: Environment, first: nat, timeout: nat, n: nat, r: WaitResult, m: nat, q: WaitResult)
    requires WaitTrace(env, first, timeout, n, r) && WaitTrace(env, first, timeout, m, q)
    ensures n == m && r == q
  {
    assert GoesOn(env, first, timeout, n - 1) == GoesOn(env, first, timeout, m - 1);
  }

  /** The exit is confirmed exactly when it is seen in time. */
  lemma ConfirmedExactly(env: Environment, first: nat, timeout: nat, n: nat, r: WaitResult)
    requires WaitTrace(env, first, timeout, n, r)
    ensures r == Confirmed <==> SeenInTime(env, first, timeout)
  {
    if r == Confirmed {
      assert SeenBy(env, first, timeout, n - 1);
    }
    if k: nat :| SeenBy(env, first, timeout, k) {
      assert !GoesOn(env, first, timeout, k);
      assert n - 1 == k;
    }
  }

  method WaitUntilExited(env: Environment, first: nat, timeout: nat) returns (r: WaitResult, n: nat)
    ensures WaitTrace(env, first, timeout, n, r) && n <= MaxProbes(timeout)
    ensures r == Confirmed <==> SeenInTime(env, first, timeout)
    ensures r == TimedOut ==> timeout <= Clock(env, first, timeout, n - 1)
  {
    var now := 0;
    var deadline := now + timeout;
    n := 0;
    while true
      invariant deadline == timeout
      invariant now == if n == 0 then 0 else Clock(env, first, timeout, n - 1) + Step(timeout)
      invariant forall k :: 0 <= k < n ==> GoesOn(env, first, timeout, k)
      invariant n > 0 ==> 0 < timeout && (n - 1) * Step(timeout) < timeout
      decreases timeout - n
    {
      var answer := env.probe(first + n);
      now := now + env.lag(first + n);
      n := n + 1;
      ghost var k: nat := n - 1;
      assert now == Clock(env, first, timeout, k);
      if n > 1 {
        SleepsAreBounded(timeout, n - 1);
      }
      if answer != Running {
        r := if answer == Exited then Confirmed else Error;
        ConfirmedExactly(env, first, timeout, n, r);
        return;
      }
      if now >= deadline {
        ConfirmedExactly(env, first, timeout, n, TimedOut);
        return TimedOut, n;
      }
      ClockCoversSleeps(env, first, timeout, k);
      StillBelow(timeout, k);
      now := now + Step(timeout);
    }
  }

  lemma StillBelow(timeout: nat, n: nat)
    requires 0 < timeout && n * Step(timeout) < timeout
    ensures n < timeout
  {
    Monotone(1, Step(timeout), n);
  }

  lemma {:induction false} QuickClock(env: Environment, timeout: nat, k: nat)
    requires forall i :: env.lag(i) == 0
    ensures Clock(env, 0, timeout, k) == k * Step(timeout)
  {
    if k > 0 {
      QuickClock(env, timeout, k - 1);
      assert k * Step(timeout) == (k - 1) * Step(timeout) + Step(timeout);
    }
  }

  lemma CeilIsLeast(a: nat, b: nat, q: nat)
    requires 0 < b && a <= q * b
    ensures CeilDiv(a, b) <= q
  {
    assert CeilDiv(a, b) * b <= a + b - 1;
    if q < CeilDiv(a, b) {
      Monotone(q + 1, CeilDiv(a, b), b);
    }
  }

  /** The bound on the probes is reached: by a tree that never exits, when nothing but the sleeps takes time. */
  lemma MaxProbesAreMade(env: Environment, timeout: nat, n: nat, r: WaitResult)
    requires (forall i :: env.lag(i) == 0) && (forall i :: env.probe(i) == Running)
    requires WaitTrace(env, 0, timeout, n, r) && n <= MaxProbes(timeout)
    ensures r == TimedOut && n == MaxProbes(timeout)
  {
    hide CeilDiv;
    QuickClock(env, timeout, n - 1);
    assert !GoesOn(env, 0, timeout, n - 1);
    if timeout > 0 {
      CeilIsLeast(timeout, Step(timeout), n - 1);
    }
  }

  /** The answers of a wait as calls. */
  function Probes(env: Environment, first: nat, n: nat): seq<Call> {
    seq(n, i requires 0 <= i < n => Probed(env.probe(first + i)))
  }

  /** Whether these calls are a whole graceful phase that did not confirm the exit of the tree. */
  ghost predicate GracefulPhaseFailed(calls: seq<Call>) {
    && calls != [] && calls[0].Requested?
    && (calls[0] == Requested(false) ==> |calls| == 1)
    && forall i :: 0 < i < |calls| ==> calls[i].Probed? && calls[i] != Probed(Exited)
  }

  /** Every kill follows a failed graceful phase, and every reap ends the history and follows a confirmed exit. */
  ghost predicate Disciplined(calls: seq<Call>) {
    && (forall i :: 0 <= i < |calls| && calls[i].Killed? ==> GracefulPhaseFailed(calls[..i]))
    && (forall i :: 0 <= i < |calls| && calls[i].Reaped? ==>
                      i == |calls| - 1 && 0 < i && calls[i - 1] == Probed(Exited))
  }

  ghost predicate Unkilled(calls: seq<Call>) {
    forall i :: 0 <= i < |calls| ==> !calls[i].Killed?
  }

  ghost predicate Unreaped(calls: seq<Call>) {
    forall i :: 0 <= i < |calls| ==> !calls[i].Reaped?
  }

  lemma AppendProbes(calls: seq<Call>, probes: seq<Call>)
    requires Disciplined(calls) && Unreaped(calls)
    requires forall i :: 0 <= i < |probes| ==> probes[i].Probed?
    ensures Disciplined(calls + probes) && Unreaped(calls + probes)
    ensures Unkilled(calls) ==> Unkilled(calls + probes)
  {
    forall i | 0 <= i < |calls + probes| && (calls + probes)[i].Killed?
      ensures GracefulPhaseFailed((calls + probes)[..i])
    {
      assert (calls + probes)[..i] == calls[..i];
    }
  }

  lemma AppendKill(calls: seq<Call>, ok: bool)
    requires Disciplined(calls) && GracefulPhaseFailed(calls)
    ensures Disciplined(calls + [Killed(ok)]) && Unreaped(calls + [Killed(ok)])
  {
    var after := calls + [Killed(ok)];
    forall i | 0 <= i < |after| && after[i].Killed?
      ensures GracefulPhaseFailed(after[..i])
    {
      if i == |calls| {
        assert after[..i] == calls;
      }
    }
  }

  lemma AppendReap(calls: seq<Call>, ok: bool)
    requires Disciplined(calls) && Unreaped(calls) && calls != [] && calls[|calls| - 1] == Probed(Exited)
    ensures Disciplined(calls + [Reaped(ok)])
    ensures Unkilled(calls) ==> Unkilled(calls + [Reaped(ok)])
  {
    var after := calls + [Reaped(ok)];
    forall i | 0 <= i < |after| && after[i].Killed?
      ensures GracefulPhaseFailed(after[..i])
    {
      assert after[..i] == calls[..i];
    }
  }

  /** The tree accepts the request and is seen to exit before the timeout. */
  ghost predicate ExitsInTime(env: Environment, timeout: nat) {
    env.requestOk && SeenInTime(env, 0, timeout)
  }

  /** The number of probes of the graceful phase. */
  ghost predicate GracefulProbes(env: Environment, timeout: nat, n: nat) {
    if env.requestOk then exists r :: WaitTrace(env, 0, timeout, n, r) else n == 0
  }

  /** The number of probes of the forced phase, the first of which has number `first`. */
  ghost predicate ForcedProbes(env: Environment, first: nat, timeout: nat, n: nat) {
    if env.killOk then exists r :: WaitTrace(env, first, timeout, n, r) else n == 0
  }

  /** All calls: the request and its wait, and unless the exit was seen the kill and its wait; and the reap at last. */
  ghost predicate Script(env: Environment, gracefulTimeout: nat, forcedTimeout: nat, calls: seq<Call>, n: nat, m: nat) {
    var graceful := [Requested(env.requestOk)] + Probes(env, 0, n);
    var forced := [Killed(env.killOk)] + Probes(env, n, m);
    && GracefulProbes(env, gracefulTimeout, n)
    && if ExitsInTime(env, gracefulTimeout) then m == 0 && calls == graceful + [Reaped(env.reapOk)]
       else
         && ForcedProbes(env, n, forcedTimeout, m)
         && calls == graceful + forced +
                     if env.killOk && SeenInTime(env, n, forcedTimeout) then [Reaped(env.reapOk)] else []
  }

  /** The request and its wait: what the source computes as `gracefully_exited`. */
  method GracefulPhase(env: Environment, timeout: nat) returns (exited: bool, calls: seq<Call>, probes: nat)
    ensures Disciplined(calls) && Unreaped(calls) && Unkilled(calls) && calls != []
    ensures exited ==> calls[|calls| - 1] == Probed(Exited)
    ensures !exited ==> GracefulPhaseFailed(calls)
    ensures |calls| == 1 + probes <= 1 + MaxProbes(timeout)
    ensures exited <==> ExitsInTime(env, timeout)
    ensures GracefulProbes(env, timeout, probes) && calls == [Requested(env.requestOk)] + Probes(env, 0, probes)
  {
    calls, probes, exited := [Requested(env.requestOk)], 0, false;
    if env.requestOk {
      var waited, n := WaitUntilExited(env, 0, timeout);
      forall i | 0 <= i < n && waited != Confirmed ensures Probes(env, 0, n)[i] != Probed(Exited) {
        assert i < n - 1 ==> GoesOn(env, 0, timeout, i);
      }
      AppendProbes(calls, Probes(env, 0, n));
      calls, probes := calls + Probes(env, 0, n), n;
      exited := waited == Confirmed;
    }
  }

  /** The kill and its wait. */
  method ForcedPhase(env: Environment, first: nat, timeout: nat, before: seq<Call>)
    returns (exited: bool, calls: seq<Call>)
    requires Disciplined(before) && GracefulPhaseFailed(before)
    ensures Disciplined(calls) && Unreaped(calls)
    ensures |before| < |calls| && calls[|before|] == Killed(env.killOk)
    ensures exited ==> env.killOk && calls[|calls| - 1] == Probed(Exited)
    ensures exited <==> env.killOk && SeenInTime(env, first, timeout)
    ensures exists m :: ForcedProbes(env, first, timeout, m) && calls == before + [Killed(env.killOk)] + Probes(env, first, m)
    ensures |calls| <= |before| + 1 + MaxProbes(timeout)
  {
    AppendKill(before, env.killOk);
    calls, exited := before + [Killed(env.killOk)], false;
    assert Probes(env, first, 0) == [] && calls == before + [Killed(env.killOk)] + Probes(env, first, 0);
    assert !env.killOk ==> ForcedProbes(env, first, timeout, 0);
    if env.killOk {
      var waited, n := WaitUntilExited(env, first, timeout);
      assert ForcedProbes(env, first, timeout, n);
      AppendProbes(calls, Probes(env, first, n));
      calls := calls + Probes(env, first, n);
      exited := waited == Confirmed;
    }
  }

  lemma ForcedScript(
    env: Environment, gracefulTimeout: nat, forcedTimeout: nat, graceful: seq<Call>, n: nat, m: nat)
    requires GracefulProbes(env, gracefulTimeout, n) && !ExitsInTime(env, gracefulTimeout)
    requires ForcedProbes(env, n, forcedTimeout, m)
    requires graceful == [Requested(env.requestOk)] + Probes(env, 0, n)
    ensures var calls := graceful + [Killed(env.killOk)] + Probes(env, n, m);
            if env.killOk && SeenInTime(env, n, forcedTimeout) then
              Script(env, gracefulTimeout, forcedTimeout, calls + [Reaped(env.reapOk)], n, m)
            else Script(env, gracefulTimeout, forcedTimeout, calls, n, m)
  {
    hide ExitsInTime, SeenInTime, GracefulProbes, ForcedProbes, Probes;
    var calls := graceful + [Killed(env.killOk)] + Probes(env, n, m);
    assert calls == graceful + ([Killed(env.killOk)] + Probes(env, n, m));
    assert calls + [] == calls;
  }

  lemma OnlySoManyProbes(env: Environment, timeout: nat, n: nat)
    requires GracefulProbes(env, timeout, n)
    ensures forall m :: GracefulProbes(env, timeout, m) ==> m == n
  {
    forall m | GracefulProbes(env, timeout, m) ensures m == n {
      if env.requestOk {
        var r :| WaitTrace(env, 0, timeout, n, r);
        var q :| WaitTrace(env, 0, timeout, m, q);
        WaitIsDetermined(env, 0, timeout, n, r, m, q);
      }
    }
  }

  /**
   Success means that a probe reported the whole tree exited and that one successful reap followed as the last call; a
   graceful success killed nothing, a forced one killed with success. Every kill comes after a failed graceful phase: a
   tree that accepts the request and is seen to exit within the graceful timeout is never killed, any other tree is.
   */
  method StopProcess(env: Environment, gracefulTimeout: nat, forcedTimeout: nat)
    returns (r: StopResult, calls: seq<Call>)
    ensures |calls| >= 2 && (r != Failed <==> calls[|calls| - 1] == Reaped(true))
    ensures r != Failed ==> calls[|calls| - 2] == Probed(Exited)
    ensures Disciplined(calls)
    ensures r == Graceful ==> Unkilled(calls)
    ensures r == Forced ==> Killed(true) in calls
    ensures if ExitsInTime(env, gracefulTimeout) then Unkilled(calls) else Killed(env.killOk) in calls
    ensures r == Graceful <==> ExitsInTime(env, gracefulTimeout) && env.reapOk
    ensures r == Forced <==>
            && !ExitsInTime(env, gracefulTimeout) && env.killOk && env.reapOk
            && exists n :: GracefulProbes(env, gracefulTimeout, n) && SeenInTime(env, n, forcedTimeout)
    ensures exists n, m :: Script(env, gracefulTimeout, forcedTimeout, calls, n, m)
    ensures |calls| <= 3 + MaxProbes(gracefulTimeout) + MaxProbes(forcedTimeout)
  {
    hide Disciplined, Unkilled, GracefulPhaseFailed, MaxProbes, ExitsInTime, SeenInTime, GracefulProbes, ForcedProbes;
    var exited, graceful, probes := GracefulPhase(env, gracefulTimeout);
    calls := graceful;
    if exited {
      AppendReap(calls, env.reapOk);
      assert Script(env, gracefulTimeout, forcedTimeout, calls + [Reaped(env.reapOk)], probes, 0);
      return if env.reapOk then Graceful else Failed, calls + [Reaped(env.reapOk)];
    }
    exited, calls := ForcedPhase(env, probes, forcedTimeout, graceful);
    assert calls[|graceful|] == Killed(env.killOk);
    OnlySoManyProbes(env, gracefulTimeout, probes);
    ghost var m :| ForcedProbes(env, probes, forcedTimeout, m) &&
                   calls == graceful + [Killed(env.killOk)] + Probes(env, probes, m);
    ForcedScript(env, gracefulTimeout, forcedTimeout, graceful, probes, m);
    if !exited {
      return Failed, calls;
    }
    AppendReap(calls, env.reapOk);
    assert (calls + [Reaped(env.reapOk)])[|graceful|] == Killed(true);
    return if env.reapOk then Forced else Failed, calls + [Reaped(env.reapOk)];
  }

  lemma NoKillInGracefulPhase(calls: seq<Call>, i: nat, j: nat)
    requires i < j <= |calls| && GracefulPhaseFailed(calls[..j])
    ensures !calls[i].Killed?
  {
    assert calls[..j][i] == calls[i];
  }

  /** A disciplined history holds at most one kill. */
  lemma KilledAtMostOnce(calls: seq<Call>, i: nat, j: nat)
    requires i < |calls| && j < |calls| && calls[i].Killed? && calls[j].Killed? && Disciplined(calls)
    ensures i == j
  {
    hide GracefulPhaseFailed;
    if i < j {
      assert GracefulPhaseFailed(calls[..j]);
      NoKillInGracefulPhase(calls, i, j);
    } else if j < i {
      assert GracefulPhaseFailed(calls[..i]);
      NoKillInGracefulPhase(calls, j, i);
    }
  }
}
