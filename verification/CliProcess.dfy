/**
 Observing, stopping and classifying one CLI process from several threads
 (src-tauri/src/cli_supervisor.rs:778-808, 1470-1590).

 A step of a thread is one access to shared state: taking the child lock, one read or write of the observed status, one
 `try_wait`, the store of the requested generation, or the classification (whose only shared read is one atomic load made
 under the classification lock). The child may exit between any two steps.
 */
module CliProcess {
  import opened Bytes

  /** An exit status; the code is absent when a signal ended the child. */
  datatype Status = Status(code: Option<int>)

  datatype ExitReason = Requested | Unexpected | StaleGeneration

  function ClassifyExit(process: nat, current: nat, requested: Option<nat>): ExitReason {
    if requested == Some(process) then Requested
    else if process != current then StaleGeneration
    else Unexpected
  }

  function ClassifyExitWithCode(process: nat, current: nat, requested: Option<nat>, code: Option<int>): ExitReason {
    if code == Some(130) then
      if requested == Some(process) then Requested else Unexpected
    else ClassifyExit(process, current, requested)
  }

  /** What `observe_child_status` was called for. */
  datatype Goal = ToTryExit(current: nat) | ToHasExited | ToReap

  datatype Pc =
    | ObserveRead(goal: Goal)
    | ObserveWait(goal: Goal)
    | ObserveCache(goal: Goal, status: Status)
    | Classifying(current: nat, status: Status)
    | ReapLock
    | ReapWait                             // child lock held
    | ReapOverwrite(status: Status)
    | StopLock(current: nat)
    | StopRead(current: nat)               // child lock held, as in the following ones
    | StopPoll(current: nat)
    | StopStore(current: nat)
    | StopAct(current: nat)
    | StopRepoll(current: nat)
    | StopCache(current: nat, status: Status)

  datatype Operation = TryExit(current: nat) | HasExited | Reap | RequestGracefulStop(current: nat)

  /**
   `exited` is the state of the child itself; `observed`, `requested` (0 for none) and `reason` are the fields of
   CliProcess; `registered` says that the store of lines 1546-1547 was made; `answers` collects what `try_exit` returned.
   */
  datatype State = State(
    generation: nat,
    exited: Option<Status>,
    observed: Option<Status>,
    requested: nat,
    registered: bool,
    reason: Option<ExitReason>,
    lock: Option<nat>,
    threads: map<nat, Pc>,
    answers: set<(Status, ExitReason)>)

  function Init(generation: nat): State {
    State(generation, None, None, 0, false, None, None, map[], {})
  }

  /** `ok` is false when the platform call of the step fails. */
  datatype Step = Exit(status: Status) | Begin(thread: nat, operation: Operation) | Advance(thread: nat, ok: bool)

  function FirstPc(operation: Operation): Pc {
    match operation
    case TryExit(current) => ObserveRead(ToTryExit(current))
    case HasExited => ObserveRead(ToHasExited)
    case Reap => ObserveRead(ToReap)
    case RequestGracefulStop(current) => StopLock(current)
  }

  function Goto(s: State, t: nat, pc: Pc): State {
    s.(threads := s.threads[t := pc])
  }

  function Return(s: State, t: nat): State {
    s.(threads := s.threads - {t})
  }

  function Unlock(s: State): State {
    s.(lock := None)
  }

  /** `observe_child_status` has returned to its caller. */
  function Observed(s: State, t: nat, goal: Goal, status: Option<Status>): State {
    match goal
    case ToTryExit(current) => if status.Some? then Goto(s, t, Classifying(current, status.value)) else Return(s, t)
    case ToHasExited => Return(s, t)
    case ToReap => if status.Some? then Return(s, t) else Goto(s, t, ReapLock)
  }

  function Cached(s: State, status: Status): State {
    if s.observed.Some? then s else s.(observed := Some(status))
  }

  function Classified(s: State, current: nat, status: Status): State {
    var requested := if s.requested == 0 then None else Some(s.requested);
    var reason := if s.reason.Some? then s.reason.value
                  else ClassifyExitWithCode(s.generation, current, requested, status.code);
    s.(reason := Some(reason), answers := s.answers + {(status, reason)})
  }

  function Observe(s: State, t: nat, pc: Pc, ok: bool): Option<State>
    requires pc.ObserveRead? || pc.ObserveWait? || pc.ObserveCache?
  {
    match pc
    case ObserveRead(goal) =>
      Some(if s.observed.Some? then Observed(s, t, goal, s.observed) else Goto(s, t, ObserveWait(goal)))
    case ObserveWait(goal) =>
      if s.lock.Some? then None
      else if !ok then Some(Return(s, t))
      else if s.exited.Some? then Some(Goto(s, t, ObserveCache(goal, s.exited.value)))
      else Some(Observed(s, t, goal, None))
    case ObserveCache(goal, status) => Some(Observed(Cached(s, status), t, goal, Some(status)))
  }

  function ReapStep(s: State, t: nat, pc: Pc, ok: bool): Option<State>
    requires pc.ReapLock? || pc.ReapWait? || pc.ReapOverwrite?
  {
    match pc
    case ReapLock => if s.lock.Some? then None else Some(Goto(s, t, ReapWait).(lock := Some(t)))
    case ReapWait =>
      if !ok then Some(Unlock(Return(s, t)))
      else if s.exited.None? then None
      else Some(Unlock(Goto(s, t, ReapOverwrite(s.exited.value))))
    case ReapOverwrite(status) => Some(Return(s.(observed := Some(status)), t))
  }

  predicate IsStop(pc: Pc) {
    pc.StopLock? || pc.StopRead? || pc.StopPoll? || pc.StopStore? || pc.StopAct? || pc.StopRepoll? || pc.StopCache?
  }

  function StopStep(s: State, t: nat, pc: Pc, ok: bool): Option<State>
    requires IsStop(pc)
  {
    match pc
    case StopLock(c) => if s.lock.Some? then None else Some(Goto(s, t, StopRead(c)).(lock := Some(t)))
    case StopRead(c) =>
      Some(Goto(s, t, if s.observed.Some? then StopCache(c, s.observed.value) else StopPoll(c)))
    case StopPoll(c) =>
      Some(if !ok then Unlock(Return(s, t))
           else Goto(s, t, if s.exited.Some? then StopCache(c, s.exited.value) else StopStore(c)))
    case StopStore(c) => Some(Goto(s, t, StopAct(c)).(requested := s.generation, registered := true))
    case StopAct(c) => Some(if ok then Unlock(Return(s, t)) else Goto(s, t, StopRepoll(c)))
    case StopRepoll(c) =>
      Some(if ok && s.exited.Some? then Goto(s, t, StopCache(c, s.exited.value)) else Unlock(Return(s, t)))
    case StopCache(c, status) => Some(Unlock(Goto(Cached(s, status), t, ObserveRead(ToTryExit(c)))))
  }

  function Move(s: State, t: nat, pc: Pc, ok: bool): Option<State> {
    match pc
    case ObserveRead(_) => Observe(s, t, pc, ok)
    case ObserveWait(_) => Observe(s, t, pc, ok)
    case ObserveCache(_, _) => Observe(s, t, pc, ok)
    case Classifying(current, status) => Some(Return(Classified(s, current, status), t))
    case ReapLock => ReapStep(s, t, pc, ok)
    case ReapWait => ReapStep(s, t, pc, ok)
    case ReapOverwrite(_) => ReapStep(s, t, pc, ok)
    case StopLock(_) => StopStep(s, t, pc, ok)
    case StopRead(_) => StopStep(s, t, pc, ok)
    case StopPoll(_) => StopStep(s, t, pc, ok)
    case StopStore(_) => StopStep(s, t, pc, ok)
    case StopAct(_) => StopStep(s, t, pc, ok)
    case StopRepoll(_) => StopStep(s, t, pc, ok)
    case StopCache(_, _) => StopStep(s, t, pc, ok)
  }

  /** One step, or None when it is not enabled. */
  function Do(s: State, step: Step): Option<State> {
    match step
    case Exit(status) => if s.exited.Some? then None else Some(s.(exited := Some(status)))
    case Begin(t, operation) => if t in s.threads then None else Some(Goto(s, t, FirstPc(operation)))
    case Advance(t, ok) => if t in s.threads then Move(s, t, s.threads[t], ok) else None
  }

  function Run(generation: nat, steps: seq<Step>): Option<State> {
    if steps == [] then Some(Init(generation)) else
    match Run(generation, steps[..|steps| - 1])
    case None => None
    case Some(s) => Do(s, steps[|steps| - 1])
  }

  predicate HoldsLock(pc: Pc) {
    pc.ReapWait? || pc.StopRead? || pc.StopPoll? || pc.StopStore? || pc.StopAct? || pc.StopRepoll? || pc.StopCache?
  }

  function LocalStatus(pc: Pc): Option<Status> {
    match pc
    case ObserveCache(_, status) => Some(status)
    case Classifying(_, status) => Some(status)
    case ReapOverwrite(status) => Some(status)
    case StopCache(_, status) => Some(status)
    case _ => None
  }

  /** The child lock is held by the thread that is inside a locked region. */
  ghost predicate LockInv(s: State) {
    && (forall t <- s.threads :: HoldsLock(s.threads[t]) ==> s.lock == Some(t))
    && (s.lock.Some? ==> s.lock.value in s.threads && HoldsLock(s.threads[s.lock.value]))
  }

  /** Nobody knows of an exit that has not happened. */
  ghost predicate StatusInv(s: State) {
    && (s.observed.Some? ==> s.observed == s.exited)
    && (forall t <- s.threads :: LocalStatus(s.threads[t]).Some? ==> LocalStatus(s.threads[t]) == s.exited)
    && (s.reason.Some? ==> s.exited.Some?)
  }

  /** Nobody knows of an exit while a thread is about to register its stop. */
  ghost predicate Unnoticed(s: State) {
    && s.observed.None?
    && (forall t <- s.threads :: LocalStatus(s.threads[t]).None?)
    && s.reason.None?
  }

  ghost predicate AboutToRegister(s: State) {
    s.lock.Some? && s.lock.value in s.threads && s.threads[s.lock.value].StopStore?
  }

  ghost predicate ReasonInv(s: State) {
    && s.requested == (if s.registered then s.generation else 0)
    && (s.reason.Some? ==> (s.reason.value == Requested <==> s.registered && s.generation != 0))
    && (s.reason == Some(StaleGeneration) ==> s.exited.Some? && s.exited.value.code != Some(130))
    && (forall a <- s.answers :: Some(a.0) == s.exited && Some(a.1) == s.reason)
  }

  ghost predicate Inv(s: State) {
    && LockInv(s)
    && StatusInv(s)
    && (AboutToRegister(s) ==> Unnoticed(s))
    && ReasonInv(s)
  }

  lemma LockKeptByObserving(s: State, t: nat, ok: bool)
    requires LockInv(s) && t in s.threads
    requires s.threads[t].ObserveRead? || s.threads[t].ObserveWait? || s.threads[t].ObserveCache?
    requires Observe(s, t, s.threads[t], ok).Some?
    ensures LockInv(Observe(s, t, s.threads[t], ok).value)
  {
    match s.threads[t]
    case ObserveRead(goal) => match goal { case ToTryExit(_) => case ToHasExited => case ToReap => }
    case ObserveWait(goal) => match goal { case ToTryExit(_) => case ToHasExited => case ToReap => }
    case ObserveCache(goal, _) => match goal { case ToTryExit(_) => case ToHasExited => case ToReap => }
  }

  lemma LockKeptByReaping(s: State, t: nat, ok: bool)
    requires LockInv(s) && t in s.threads
    requires s.threads[t].ReapLock? || s.threads[t].ReapWait? || s.threads[t].ReapOverwrite?
    requires ReapStep(s, t, s.threads[t], ok).Some?
    ensures LockInv(ReapStep(s, t, s.threads[t], ok).value)
  {
    match s.threads[t]
    case ReapLock =>
    case ReapWait =>
    case ReapOverwrite(_) =>
  }

  lemma LockKeptByStopping(s: State, t: nat, ok: bool)
    requires LockInv(s) && t in s.threads && IsStop(s.threads[t])
    requires StopStep(s, t, s.threads[t], ok).Some?
    ensures LockInv(StopStep(s, t, s.threads[t], ok).value)
  {
    match s.threads[t]
    case StopLock(_) =>
    case StopRead(_) =>
    case StopPoll(_) =>
    case StopStore(_) =>
    case StopAct(_) =>
    case StopRepoll(_) =>
    case StopCache(_, _) =>
  }

  lemma LockKept(s: State, step: Step)
    requires LockInv(s) && Do(s, step).Some?
    ensures LockInv(Do(s, step).value)
  {
    hide Observe, ReapStep, StopStep;
    match step
    case Exit(_) =>
    case Begin(_, operation) =>
    case Advance(t, ok) =>
      var pc := s.threads[t];
      if pc.ObserveRead? || pc.ObserveWait? || pc.ObserveCache? {
        LockKeptByObserving(s, t, ok);
      } else if pc.ReapLock? || pc.ReapWait? || pc.ReapOverwrite? {
        LockKeptByReaping(s, t, ok);
      } else if IsStop(pc) {
        LockKeptByStopping(s, t, ok);
      }
  }

  lemma StatusKeptByObserving(s: State, t: nat, ok: bool)
    requires StatusInv(s) && t in s.threads
    requires s.threads[t].ObserveRead? || s.threads[t].ObserveWait? || s.threads[t].ObserveCache?
    requires Observe(s, t, s.threads[t], ok).Some?
    ensures StatusInv(Observe(s, t, s.threads[t], ok).value)
  {
    match s.threads[t]
    case ObserveRead(goal) => match goal { case ToTryExit(_) => case ToHasExited => case ToReap => }
    case ObserveWait(goal) => match goal { case ToTryExit(_) => case ToHasExited => case ToReap => }
    case ObserveCache(goal, _) => match goal { case ToTryExit(_) => case ToHasExited => case ToReap => }
  }

  lemma StatusKeptByReaping(s: State, t: nat, ok: bool)
    requires StatusInv(s) && t in s.threads
    requires s.threads[t].ReapLock? || s.threads[t].ReapWait? || s.threads[t].ReapOverwrite?
    requires ReapStep(s, t, s.threads[t], ok).Some?
    ensures StatusInv(ReapStep(s, t, s.threads[t], ok).value)
  {
    match s.threads[t]
    case ReapLock =>
    case ReapWait =>
    case ReapOverwrite(_) =>
  }

  lemma StatusKeptByStopping(s: State, t: nat, ok: bool)
    requires StatusInv(s) && t in s.threads && IsStop(s.threads[t])
    requires StopStep(s, t, s.threads[t], ok).Some?
    ensures StatusInv(StopStep(s, t, s.threads[t], ok).value)
  {
    match s.threads[t]
    case StopLock(_) =>
    case StopRead(_) =>
    case StopPoll(_) =>
    case StopStore(_) =>
    case StopAct(_) =>
    case StopRepoll(_) =>
    case StopCache(_, _) =>
  }

  lemma StatusKept(s: State, step: Step)
    requires StatusInv(s) && Do(s, step).Some?
    ensures StatusInv(Do(s, step).value)
  {
    hide Observe, ReapStep, StopStep;
    match step
    case Exit(_) =>
    case Begin(_, operation) =>
    case Advance(t, ok) =>
      var pc := s.threads[t];
      if pc.ObserveRead? || pc.ObserveWait? || pc.ObserveCache? {
        StatusKeptByObserving(s, t, ok);
      } else if pc.ReapLock? || pc.ReapWait? || pc.ReapOverwrite? {
        StatusKeptByReaping(s, t, ok);
      } else if IsStop(pc) {
        StatusKeptByStopping(s, t, ok);
      }
  }

  lemma UnnoticedKept(s: State, step: Step)
    requires LockInv(s) && StatusInv(s) && (AboutToRegister(s) ==> Unnoticed(s)) && Do(s, step).Some?
    ensures AboutToRegister(Do(s, step).value) ==> Unnoticed(Do(s, step).value)
  {
    var after := Do(s, step).value;
    if AboutToRegister(after) {
      if AboutToRegister(s) {
        StillUnnoticed(s, step);
      } else {
        NewlyUnnoticed(s, step);
      }
    }
  }

  lemma StillUnnoticed(s: State, step: Step)
    requires LockInv(s) && AboutToRegister(s) && Unnoticed(s)
    requires Do(s, step).Some? && AboutToRegister(Do(s, step).value)
    ensures Unnoticed(Do(s, step).value)
  {
    match step
    case Exit(_) =>
    case Begin(_, operation) =>
    case Advance(t, ok) =>
      match s.threads[t] {
        case ObserveRead(goal) => match goal { case ToTryExit(_) => case ToHasExited => case ToReap => }
        case ObserveWait(goal) =>
        case ObserveCache(goal, _) =>
        case Classifying(_, _) =>
        case ReapLock =>
        case ReapWait =>
        case ReapOverwrite(_) =>
        case _ =>
      }
  }

  lemma NewlyUnnoticed(s: State, step: Step)
    requires LockInv(s) && StatusInv(s) && !AboutToRegister(s)
    requires Do(s, step).Some? && AboutToRegister(Do(s, step).value)
    ensures Unnoticed(Do(s, step).value) && step.Advance? && s.threads[step.thread].StopPoll? && s.exited.None?
  {
    match step
    case Exit(_) =>
    case Begin(_, operation) =>
    case Advance(t, ok) =>
      match s.threads[t] {
        case ObserveRead(goal) => match goal { case ToTryExit(_) => case ToHasExited => case ToReap => }
        case ObserveWait(goal) =>
        case ObserveCache(goal, _) => match goal { case ToTryExit(_) => case ToHasExited => case ToReap => }
        case Classifying(_, _) =>
        case ReapLock =>
        case ReapWait =>
        case ReapOverwrite(_) =>
        case StopLock(_) =>
        case StopRead(_) =>
        case StopPoll(_) =>
        case StopStore(_) =>
        case StopAct(_) =>
        case StopRepoll(_) =>
        case StopCache(_, _) =>
      }
  }

  /** What the first classification decides; the later ones repeat it. */
  lemma FirstClassification(s: State, current: nat, status: Status)
    requires ReasonInv(s) && s.reason.None?
    ensures var r := Classified(s, current, status).reason.value;
            && (r == Requested <==> s.registered && s.generation != 0)
            && (r == StaleGeneration <==> r != Requested && s.generation != current && status.code != Some(130))
  {
    assert s.registered ==> s.requested == s.generation;
  }

  lemma ReasonKeptByClassifying(s: State, current: nat, status: Status)
    requires ReasonInv(s) && s.exited == Some(status)
    ensures ReasonInv(Classified(s, current, status))
  {
  }

  lemma ReasonKeptByRegistering(s: State, t: nat)
    requires LockInv(s) && (AboutToRegister(s) ==> Unnoticed(s)) && ReasonInv(s)
    requires t in s.threads && s.threads[t].StopStore?
    ensures ReasonInv(StopStep(s, t, s.threads[t], true).value)
  {
    assert Unnoticed(s);
  }

  /** The steps that leave the classification and the registration alone. */
  lemma ReasonUntouched(s: State, t: nat, ok: bool)
    requires t in s.threads && Move(s, t, s.threads[t], ok).Some?
    requires !s.threads[t].Classifying? && !s.threads[t].StopStore?
    ensures var after := Move(s, t, s.threads[t], ok).value;
            && after.generation == s.generation && after.exited == s.exited && after.requested == s.requested
            && after.registered == s.registered && after.reason == s.reason && after.answers == s.answers
  {
    match s.threads[t] {
      case ObserveRead(goal) => match goal { case ToTryExit(_) => case ToHasExited => case ToReap => }
      case ObserveWait(goal) => match goal { case ToTryExit(_) => case ToHasExited => case ToReap => }
      case ObserveCache(goal, _) => match goal { case ToTryExit(_) => case ToHasExited => case ToReap => }
      case ReapLock =>
      case ReapWait =>
      case ReapOverwrite(_) =>
      case StopCache(_, _) =>
      case _ =>
    }
  }

  lemma ReasonKept(s: State, step: Step)
    requires Inv(s) && Do(s, step).Some?
    ensures ReasonInv(Do(s, step).value)
  {
    hide Move, Unnoticed, AboutToRegister;
    match step
    case Exit(_) =>
    case Begin(_, operation) =>
    case Advance(t, ok) =>
      match s.threads[t] {
        case Classifying(current, status) =>
          assert LocalStatus(s.threads[t]) == Some(status);
          ReasonKeptByClassifying(s, current, status);
          MoveClassifying(s, t, current, status, ok);
        case StopStore(_) =>
          ReasonKeptByRegistering(s, t);
          MoveRegistering(s, t, ok);
        case _ => ReasonUntouched(s, t, ok);
      }
  }

  lemma MoveClassifying(s: State, t: nat, current: nat, status: Status, ok: bool)
    requires t in s.threads && s.threads[t] == Classifying(current, status)
    ensures Move(s, t, s.threads[t], ok) == Some(Return(Classified(s, current, status), t))
  {
  }

  lemma MoveRegistering(s: State, t: nat, ok: bool)
    requires t in s.threads && s.threads[t].StopStore?
    ensures Move(s, t, s.threads[t], ok) == StopStep(s, t, s.threads[t], true)
  {
  }

  lemma StepKeeps(s: State, step: Step)
    requires Inv(s) && Do(s, step).Some?
    ensures Inv(Do(s, step).value)
  {
    hide Do, LockInv, StatusInv, Unnoticed, AboutToRegister, ReasonInv;
    LockKept(s, step);
    StatusKept(s, step);
    UnnoticedKept(s, step);
    ReasonKept(s, step);
  }

  lemma {:induction false} RunKeeps(generation: nat, steps: seq<Step>)
    requires Run(generation, steps).Some?
    ensures Inv(Run(generation, steps).value) && Run(generation, steps).value.generation == generation
  {
    if steps != [] {
      var before := steps[..|steps| - 1];
      RunKeeps(generation, before);
      StepKeeps(Run(generation, before).value, steps[|steps| - 1]);
      GenerationKept(Run(generation, before).value, steps[|steps| - 1]);
    }
  }

  lemma GenerationKept(s: State, step: Step)
    requires Do(s, step).Some?
    ensures Do(s, step).value.generation == s.generation
  {
    match step
    case Exit(_) =>
    case Begin(_, operation) =>
    case Advance(t, ok) =>
      match s.threads[t] {
        case ObserveRead(goal) => match goal { case ToTryExit(_) => case ToHasExited => case ToReap => }
        case ObserveWait(goal) =>
        case ObserveCache(goal, _) =>
        case _ =>
      }
  }

  /** A graceful stop polls the child under the child lock and finds it alive. */
  predicate FindsAlive(s: State, step: Step) {
    step.Advance? && step.ok && step.thread in s.threads && s.threads[step.thread].StopPoll? && s.exited.None?
  }

  ghost predicate StopFoundAlive(generation: nat, steps: seq<Step>) {
    steps != [] &&
    var before := steps[..|steps| - 1];
    (StopFoundAlive(generation, before) ||
     (Run(generation, before).Some? && FindsAlive(Run(generation, before).value, steps[|steps| - 1])))
  }

  lemma PendingStep(s: State, step: Step)
    requires LockInv(s) && StatusInv(s) && Do(s, step).Some?
    ensures var after := Do(s, step).value;
            after.registered || AboutToRegister(after) <==>
            s.registered || AboutToRegister(s) || FindsAlive(s, step)
  {
    match step
    case Exit(_) =>
    case Begin(_, operation) =>
    case Advance(t, ok) =>
      match s.threads[t] {
        case ObserveRead(goal) => match goal { case ToTryExit(_) => case ToHasExited => case ToReap => }
        case ObserveWait(goal) => match goal { case ToTryExit(_) => case ToHasExited => case ToReap => }
        case ObserveCache(goal, _) => match goal { case ToTryExit(_) => case ToHasExited => case ToReap => }
        case Classifying(_, status) =>
        case ReapLock =>
        case ReapWait =>
        case ReapOverwrite(_) =>
        case StopLock(_) =>
        case StopRead(_) =>
        case StopPoll(_) =>
        case StopStore(_) =>
        case StopAct(_) =>
        case StopRepoll(_) =>
        case StopCache(_, _) =>
      }
  }

  lemma {:induction false} FoundAliveIsPending(generation: nat, steps: seq<Step>)
    requires Run(generation, steps).Some?
    ensures var s := Run(generation, steps).value;
            StopFoundAlive(generation, steps) <==> s.registered || AboutToRegister(s)
  {
    hide Do, FindsAlive, AboutToRegister, LockInv, StatusInv;
    if steps == [] {
      NothingPendingAtFirst(generation);
    } else {
      var before := steps[..|steps| - 1];
      RunKeeps(generation, before);
      FoundAliveIsPending(generation, before);
      PendingStep(Run(generation, before).value, steps[|steps| - 1]);
    }
  }

  lemma NothingPendingAtFirst(generation: nat)
    ensures !Init(generation).registered && !AboutToRegister(Init(generation))
  {
  }

  /**
   The exit is classified as requested exactly when some graceful stop had found the child alive under the child lock;
   generation 0, which is never handed out, is the exception, since 0 stands for "no request".
   */
  lemma RequestedExactly(generation: nat, steps: seq<Step>)
    requires Run(generation, steps).Some? && Run(generation, steps).value.reason.Some?
    ensures Run(generation, steps).value.reason.value == Requested <==>
            generation != 0 && StopFoundAlive(generation, steps)
  {
    hide Do, LockInv, Run, StopFoundAlive;
    RunKeeps(generation, steps);
    FoundAliveIsPending(generation, steps);
  }

  lemma RunPrefix(generation: nat, steps: seq<Step>, more: seq<Step>)
    requires more != [] && Run(generation, steps + more).Some?
    ensures var before := steps + more[..|more| - 1];
            (steps + more)[..|steps + more| - 1] == before && Run(generation, before).Some? &&
            Run(generation, steps + more) == Do(Run(generation, before).value, more[|more| - 1])
  {
    assert (steps + more)[..|steps + more| - 1] == steps + more[..|more| - 1];
  }

  lemma FactsPersist(s: State, step: Step)
    requires Inv(s) && Do(s, step).Some?
    ensures var after := Do(s, step).value;
            && (s.exited.Some? ==> after.exited == s.exited)
            && (s.observed.Some? ==> after.observed == s.observed)
            && (s.reason.Some? ==> after.reason == s.reason)
            && s.answers <= after.answers
  {
    match step
    case Exit(_) =>
    case Begin(_, operation) =>
    case Advance(t, ok) =>
      match s.threads[t] {
        case ObserveRead(goal) => match goal { case ToTryExit(_) => case ToHasExited => case ToReap => }
        case ObserveWait(goal) => match goal { case ToTryExit(_) => case ToHasExited => case ToReap => }
        case ObserveCache(goal, _) => match goal { case ToTryExit(_) => case ToHasExited => case ToReap => }
        case Classifying(_, status) =>
        case ReapLock =>
        case ReapWait =>
        case ReapOverwrite(status) => assert LocalStatus(s.threads[t]) == Some(status);
        case _ =>
      }
  }

  /** The reason and the observed status are written once; every answer ever given stays the answer. */
  lemma {:induction false} WrittenOnce(generation: nat, steps: seq<Step>, more: seq<Step>)
    requires Run(generation, steps).Some? && Run(generation, steps + more).Some?
    ensures var s, after := Run(generation, steps).value, Run(generation, steps + more).value;
            && (s.exited.Some? ==> after.exited == s.exited)
            && (s.observed.Some? ==> after.observed == s.observed)
            && (s.reason.Some? ==> after.reason == s.reason)
            && s.answers <= after.answers
  {
    hide Do, Inv;
    if more == [] {
      assert steps + more == steps;
    } else {
      RunPrefix(generation, steps, more);
      var before := steps + more[..|more| - 1];
      WrittenOnce(generation, steps, more[..|more| - 1]);
      RunKeeps(generation, before);
      FactsPersist(Run(generation, before).value, more[|more| - 1]);
    }
  }

  /** Any two answers of `try_exit` agree, with each other and with the child's own exit. */
  lemma AnswersAgree(generation: nat, steps: seq<Step>, a: (Status, ExitReason), b: (Status, ExitReason))
    requires Run(generation, steps).Some?
    requires a in Run(generation, steps).value.answers && b in Run(generation, steps).value.answers
    ensures a == b && Run(generation, steps).value.exited == Some(a.0)
    ensures a.1 == StaleGeneration ==> a.0.code != Some(130)
  {
    hide Do, Run, LockInv, StatusInv;
    RunKeeps(generation, steps);
  }

  lemma {:induction false} NoLaterFind(generation: nat, steps: seq<Step>, more: seq<Step>)
    requires Run(generation, steps).Some? && Run(generation, steps).value.exited.Some?
    requires Run(generation, steps + more).Some? && !StopFoundAlive(generation, steps)
    ensures !StopFoundAlive(generation, steps + more)
  {
    hide Do;
    if more == [] {
      assert steps + more == steps;
    } else {
      RunPrefix(generation, steps, more);
      var before := more[..|more| - 1];
      NoLaterFind(generation, steps, before);
      WrittenOnce(generation, steps, before);
    }
  }

  /** An exit that precedes every stop request is never classified as requested, whatever happens later. */
  lemma ExitFirstIsNeverRequested(generation: nat, steps: seq<Step>, more: seq<Step>)
    requires Run(generation, steps).Some? && Run(generation, steps).value.exited.Some?
    requires !StopFoundAlive(generation, steps)
    requires Run(generation, steps + more).Some?
    ensures Run(generation, steps + more).value.reason != Some(Requested)
  {
    hide Do, Run, StopFoundAlive;
    NoLaterFind(generation, steps, more);
    if Run(generation, steps + more).value.reason.Some? {
      RequestedExactly(generation, steps + more);
    }
  }
}
