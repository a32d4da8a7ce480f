/**
 The protocol of one CLI process read field by field: when a step is possible, where it leads its thread, and who writes
 what (src-tauri/src/cli_supervisor.rs:1470-1590).
 */
module CliRules {
  import opened Bytes
  import opened CliProcess

  /** Three calls wait for the child lock, and the final wait for the exit of the child. */
  predicate Blocked(s: State, pc: Pc, ok: bool) {
    || ((pc.ObserveWait? || pc.ReapLock? || pc.StopLock?) && s.lock.Some?)
    || (pc.ReapWait? && ok && s.exited.None?)
  }

  predicate Possible(s: State, step: Step) {
    match step
    case Exit(_) => s.exited.None?
    case Begin(t, _) => t !in s.threads
    case Advance(t, ok) => t in s.threads && !Blocked(s, s.threads[t], ok)
  }

  lemma PossibleExactly(s: State, step: Step)
    ensures Do(s, step).Some? <==> Possible(s, step)
  {
    match step
    case Exit(_) =>
    case Begin(_, _) =>
    case Advance(t, ok) => if t in s.threads { match s.threads[t] { case _ => } }
  }

  /** An exit is known: only `try_exit` goes on, to classify it. */
  function Knowing(goal: Goal, status: Status): Option<Pc> {
    if goal.ToTryExit? then Some(Classifying(goal.current, status)) else None
  }

  /** Where the thread goes on, or None when it returns. */
  function PcAfter(s: State, pc: Pc, ok: bool): Option<Pc> {
    match pc
    case ObserveRead(goal) =>
      if s.observed.Some? then Knowing(goal, s.observed.value) else Some(ObserveWait(goal))
    case ObserveWait(goal) =>
      if !ok then None
      else if s.exited.Some? then Some(ObserveCache(goal, s.exited.value))
      else if goal == ToReap then Some(ReapLock) else None
    case ObserveCache(goal, status) => Knowing(goal, status)
    case Classifying(_, _) => None
    case ReapLock => Some(ReapWait)
    case ReapWait => if ok && s.exited.Some? then Some(ReapOverwrite(s.exited.value)) else None
    case ReapOverwrite(_) => None
    case StopLock(c) => Some(StopRead(c))
    case StopRead(c) => if s.observed.Some? then Some(StopCache(c, s.observed.value)) else Some(StopPoll(c))
    case StopPoll(c) =>
      if !ok then None else if s.exited.Some? then Some(StopCache(c, s.exited.value)) else Some(StopStore(c))
    case StopStore(c) => Some(StopAct(c))
    case StopAct(c) => if ok then None else Some(StopRepoll(c))
    case StopRepoll(c) => if ok && s.exited.Some? then Some(StopCache(c, s.exited.value)) else None
    case StopCache(c, _) => Some(ObserveRead(ToTryExit(c)))
  }

  /** The place of a thread that has just begun. */
  function Entry(operation: Operation): Pc {
    match operation
    case TryExit(current) => ObserveRead(ToTryExit(current))
    case HasExited => ObserveRead(ToHasExited)
    case Reap => ObserveRead(ToReap)
    case RequestGracefulStop(current) => StopLock(current)
  }

  function ThreadAfter(s: State, step: Step, t: nat): Option<Pc> {
    if step.Begin? && step.thread == t then Some(Entry(step.operation))
    else if t !in s.threads then None
    else if step.Advance? && step.thread == t then PcAfter(s, s.threads[t], step.ok)
    else Some(s.threads[t])
  }

  /** The step of the thread at such a place. */
  predicate Moves(s: State, step: Step) {
    step.Advance? && step.thread in s.threads
  }

  /** The regions under the child lock. */
  predicate Locked(pc: Option<Pc>) {
    pc.Some? &&
    (pc.value.ReapWait? || pc.value.StopRead? || pc.value.StopPoll? || pc.value.StopStore? || pc.value.StopAct? ||
     pc.value.StopRepoll? || pc.value.StopCache?)
  }

  /** The lock is taken on the way into a locked region and released on the way out. */
  function LockAfter(s: State, step: Step): Option<nat> {
    if !Moves(s, step) then s.lock else
    var pc := s.threads[step.thread];
    var next := PcAfter(s, pc, step.ok);
    if !Locked(Some(pc)) && Locked(next) then Some(step.thread)
    else if Locked(Some(pc)) && !Locked(next) then None
    else s.lock
  }

  /** The first observation stays, except that the final wait writes its own. */
  function ObservedAfter(s: State, step: Step): Option<Status> {
    if !Moves(s, step) then s.observed
    else
      match s.threads[step.thread]
      case ObserveCache(_, status) => if s.observed.Some? then s.observed else Some(status)
      case StopCache(_, status) => if s.observed.Some? then s.observed else Some(status)
      case ReapOverwrite(status) => Some(status)
      case _ => s.observed
  }

  predicate Registers(s: State, step: Step) {
    Moves(s, step) && s.threads[step.thread].StopStore?
  }

  predicate Classifies(s: State, step: Step) {
    Moves(s, step) && s.threads[step.thread].Classifying?
  }

  /** Requested for a registered stop; stale for another generation with an exit code other than 130. */
  function Reason(s: State, current: nat, status: Status): ExitReason {
    if s.requested != 0 && s.requested == s.generation then Requested
    else if s.generation != current && status.code != Some(130) then StaleGeneration
    else Unexpected
  }

  function ReasonAfter(s: State, step: Step): Option<ExitReason> {
    if Classifies(s, step) && s.reason.None? then
      Some(Reason(s, s.threads[step.thread].current, s.threads[step.thread].status))
    else s.reason
  }

  function AnswersAfter(s: State, step: Step): set<(Status, ExitReason)> {
    if Classifies(s, step) && ReasonAfter(s, step).Some? then
      s.answers + {(s.threads[step.thread].status, ReasonAfter(s, step).value)}
    else s.answers
  }

  function Lookup(m: map<nat, Pc>, t: nat): Option<Pc> {
    if t in m then Some(m[t]) else None
  }

  ghost predicate Follows(s: State, step: Step, after: State) {
    && after.generation == s.generation
    && after.exited == (if step.Exit? then Some(step.status) else s.exited)
    && after.observed == ObservedAfter(s, step)
    && after.requested == (if Registers(s, step) then s.generation else s.requested)
    && after.registered == (s.registered || Registers(s, step))
    && after.reason == ReasonAfter(s, step) && after.answers == AnswersAfter(s, step)
    && after.lock == LockAfter(s, step)
    && forall t: nat :: Lookup(after.threads, t) == ThreadAfter(s, step, t)
  }

  lemma ReadFollows(s: State, t: nat, goal: Goal, ok: bool)
    requires t in s.threads && s.threads[t] == ObserveRead(goal)
    ensures Follows(s, Advance(t, ok), Do(s, Advance(t, ok)).value)
  {
    hide ReapStep, StopStep, ClassifyExitWithCode;
    if s.observed.Some? { match goal { case ToTryExit(_) => case ToHasExited => case ToReap => } } else {}
  }

  lemma WaitFollows(s: State, t: nat, goal: Goal, ok: bool)
    requires t in s.threads && s.threads[t] == ObserveWait(goal) && s.lock.None?
    ensures Follows(s, Advance(t, ok), Do(s, Advance(t, ok)).value)
  {
    hide ReapStep, StopStep, ClassifyExitWithCode;
    if !ok {} else if s.exited.Some? {} else { match goal { case ToTryExit(_) => case ToHasExited => case ToReap => } }
  }

  lemma CacheFollows(s: State, t: nat, goal: Goal, status: Status, ok: bool)
    requires t in s.threads && s.threads[t] == ObserveCache(goal, status)
    ensures Follows(s, Advance(t, ok), Do(s, Advance(t, ok)).value)
  {
    hide ReapStep, StopStep, ClassifyExitWithCode;
    match goal { case ToTryExit(_) => case ToHasExited => case ToReap => }
  }

  lemma ClassifyingFollows(s: State, t: nat, ok: bool)
    requires t in s.threads && s.threads[t].Classifying?
    ensures Follows(s, Advance(t, ok), Do(s, Advance(t, ok)).value)
  {
    hide Observe, ReapStep, StopStep;
    if s.reason.Some? {} else {}
  }

  lemma ReapFollows(s: State, t: nat, ok: bool)
    requires t in s.threads && (s.threads[t].ReapLock? || s.threads[t].ReapWait? || s.threads[t].ReapOverwrite?)
    requires Do(s, Advance(t, ok)).Some?
    ensures Follows(s, Advance(t, ok), Do(s, Advance(t, ok)).value)
  {
    hide Observe, StopStep, ClassifyExitWithCode;
    match s.threads[t]
    case ReapLock =>
    case ReapWait => if ok {} else {}
    case ReapOverwrite(_) =>
  }

  lemma StopFollows(s: State, t: nat, ok: bool)
    requires t in s.threads && IsStop(s.threads[t]) && Do(s, Advance(t, ok)).Some?
    ensures Follows(s, Advance(t, ok), Do(s, Advance(t, ok)).value)
  {
    hide Observe, ReapStep, ClassifyExitWithCode;
    match s.threads[t]
    case StopLock(_) =>
    case StopRead(_) => if s.observed.Some? {} else {}
    case StopPoll(_) => if !ok {} else if s.exited.Some? {} else {}
    case StopStore(_) =>
    case StopAct(_) => if ok {} else {}
    case StopRepoll(_) => if ok && s.exited.Some? {} else {}
    case StopCache(_, _) =>
  }

  lemma AdvanceFollows(s: State, t: nat, ok: bool)
    requires Do(s, Advance(t, ok)).Some?
    ensures Follows(s, Advance(t, ok), Do(s, Advance(t, ok)).value)
  {
    hide Follows, ReapStep, StopStep;
    match s.threads[t]
    case ObserveRead(goal) => ReadFollows(s, t, goal, ok);
    case ObserveWait(goal) => WaitFollows(s, t, goal, ok);
    case ObserveCache(goal, status) => CacheFollows(s, t, goal, status, ok);
    case Classifying(_, _) => ClassifyingFollows(s, t, ok);
    case ReapLock => ReapFollows(s, t, ok);
    case ReapWait => ReapFollows(s, t, ok);
    case ReapOverwrite(_) => ReapFollows(s, t, ok);
    case _ => StopFollows(s, t, ok);
  }

  /** Each field changes by its own rule and by no other. */
  lemma StepFollows(s: State, step: Step)
    requires Do(s, step).Some?
    ensures Follows(s, step, Do(s, step).value)
  {
    match step
    case Exit(_) =>
    case Begin(_, _) =>
    case Advance(t, ok) => AdvanceFollows(s, t, ok);
  }
}
