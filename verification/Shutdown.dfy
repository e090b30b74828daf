/** Session shutdown as interleaved steps of many callers, one cleanup task and
    two workers (crates/group-agent-mcp/src/session.rs:80-113, 392-417, 459-526). */
module Shutdown {
  import opened Base

  type CallerId = nat

  datatype ServiceEnd = QuitClosed | QuitCancelled | QuitJoinError | QuitOther | CloseJoinFailed | ServicePanicked
  datatype ChildEnd = ChildReaped | ChildFailed | ChildPanicked

  datatype ShutdownError = ServiceShutdownFailed(service: ServiceEnd) | ChildShutdownFailed(child: ChildEnd)

  type Outcome = Result<(), ShutdownError>

  /** `map_quit_reason` under `map_cleanup_task_result`. */
  function ServiceResult(end: ServiceEnd): Outcome {
    if end.QuitClosed? || end.QuitCancelled? then Ok(()) else Err(ServiceShutdownFailed(end))
  }

  function ChildResult(end: ChildEnd): Outcome {
    if end.ChildReaped? then Ok(()) else Err(ChildShutdownFailed(end))
  }

  function Combine(service: Outcome, child: Outcome): Outcome {
    match service
    case Err(error) => Err(error)
    case Ok(_) => child
  }

  datatype Lifecycle = ACTIVE | CLOSING | CLOSED

  datatype Worker<E> = NotStarted | Running | Ended(end: E)

  /** The cleanup task: joins both workers, then publishes under the slot lock. */
  datatype Task =
    | Absent
    | Joining
    | Publishing(outcome: Outcome)
    | Storing(outcome: Outcome)
    | ResultStored
    | ClosedStored
    | FlagStored
    | Notifying
    | TaskDone

  /** One `shutdown` call. It can be cancelled only where it awaits. */
  datatype Caller =
    | Queued
    | Holding
    | Marked
    | Releasing
    | Entering
    | Registered(ticket: nat)
    | Parked(ticket: nat)
    | Returned(outcome: Outcome)
    | Dropped

  datatype Session = Session(
    lock: Option<CallerId>,
    state: Lifecycle,
    completion: bool,
    service: Worker<ServiceEnd>,
    child: Worker<ChildEnd>,
    task: Task,
    slotHeld: bool,
    result: Option<Outcome>,
    published: bool,
    notifications: nat,
    callers: map<CallerId, Caller>,
    starts: nat)

  const OPEN := Session(None, ACTIVE, false, NotStarted, NotStarted, Absent, false, None, false, 0, map[], 0)

  datatype Action =
    | Call(caller: CallerId)
    | Acquire(caller: CallerId)
    | Mark(caller: CallerId)
    | Spawn(caller: CallerId)
    | Release(caller: CallerId)
    | Register(caller: CallerId)
    | Check(caller: CallerId)
    | Wake(caller: CallerId)
    | Cancel(caller: CallerId)
    | EndService(service: ServiceEnd)
    | EndChild(child: ChildEnd)
    | Advance

  predicate At(s: Session, c: CallerId, where: Caller) { c in s.callers && s.callers[c] == where }

  predicate Enabled(s: Session, a: Action) {
    match a
    case Call(c) => c !in s.callers
    case Acquire(c) => At(s, c, Queued) && s.lock.None?
    case Mark(c) => At(s, c, Holding)
    case Spawn(c) => At(s, c, Marked)
    case Release(c) => At(s, c, Releasing)
    case Register(c) => At(s, c, Entering)
    case Check(c) => c in s.callers && s.callers[c].Registered? && !s.slotHeld
    case Wake(c) => c in s.callers && s.callers[c].Parked? && s.callers[c].ticket < s.notifications
    case Cancel(c) => c in s.callers && (s.callers[c].Queued? || s.callers[c].Parked?)
    case EndService(_) => s.service.Running?
    case EndChild(_) => s.child.Running?
    case Advance =>
      match s.task
      case Absent => false
      case TaskDone => false
      case Joining => s.service.Ended? && s.child.Ended?
      case Publishing(_) => !s.slotHeld
      case _ => true
  }

  function Move(s: Session, c: CallerId, to: Caller): Session { s.(callers := s.callers[c := to]) }

  /** The next step of the cleanup task. */
  function AdvanceTask(s: Session): Session
    requires Enabled(s, Advance)
  {
    match s.task
    case Joining =>
      s.(task := Publishing(Combine(ServiceResult(s.service.end), ChildResult(s.child.end))))
    case Publishing(outcome) => s.(task := Storing(outcome), slotHeld := true)
    case Storing(outcome) =>
      if s.result.Some? then s.(task := TaskDone, slotHeld := false)
      else s.(task := ResultStored, result := Some(outcome))
    case ResultStored => s.(task := ClosedStored, state := CLOSED)
    case ClosedStored => s.(task := FlagStored, published := true)
    case FlagStored => s.(task := Notifying, slotHeld := false)
    case Notifying => s.(task := TaskDone, notifications := s.notifications + 1)
    case _ => s
  }

  function Do(s: Session, a: Action): Session
    requires Enabled(s, a)
  {
    match a
    case Call(c) => Move(s, c, Queued)
    case Acquire(c) => Move(s, c, Holding).(lock := Some(c))
    case Mark(c) => if s.completion then Move(s, c, Releasing) else Move(s, c, Marked).(state := CLOSING)
    case Spawn(c) =>
      Move(s, c, Releasing).(completion := true, service := Running, child := Running, task := Joining,
                             starts := s.starts + 1)
    case Release(c) => Move(s, c, Entering).(lock := None)
    case Register(c) => Move(s, c, Registered(s.notifications))
    case Check(c) =>
      if s.published && s.result.Some? then Move(s, c, Returned(s.result.value))
      else Move(s, c, Parked(s.callers[c].ticket))
    case Wake(c) => Move(s, c, Entering)
    case Cancel(c) => Move(s, c, Dropped)
    case EndService(end) => s.(service := Ended(end))
    case EndChild(end) => s.(child := Ended(end))
    case Advance => AdvanceTask(s)
  }

  /** Steps that cannot happen yet are skipped. */
  function Run(actions: seq<Action>): Session {
    if actions == [] then OPEN
    else
      var s := Run(actions[..|actions| - 1]);
      if Enabled(s, actions[|actions| - 1]) then Do(s, actions[|actions| - 1]) else s
  }

  // ---- the invariant ----

  predicate InPublication(task: Task) {
    task.Storing? || task.ResultStored? || task.ClosedStored? || task.FlagStored?
  }

  predicate Stored(task: Task) {
    task.ResultStored? || task.ClosedStored? || task.FlagStored? || task.Notifying? || task.TaskDone?
  }

  predicate Final(s: Session, outcome: Outcome) {
    s.service.Ended? && s.child.Ended? && outcome == Combine(ServiceResult(s.service.end), ChildResult(s.child.end))
  }

  /** Cleanup starts with the completion, once, and nothing runs before it. */
  predicate StartOk(s: Session) {
    && (s.completion <==> s.starts == 1) && s.starts <= 1
    && (s.completion <==> !s.task.Absent?)
    && (s.completion <==> !s.service.NotStarted?) && (s.completion <==> !s.child.NotStarted?)
    && (s.completion ==> !s.state.ACTIVE?)
  }

  /** The result appears after both workers ended, CLOSED before it is published,
      and the wakeup comes last. */
  predicate PublicationOk(s: Session) {
    && (s.task.Publishing? || s.task.Storing? ==> Final(s, s.task.outcome))
    && (s.result.Some? <==> Stored(s.task))
    && (s.result.Some? ==> Final(s, s.result.value))
    && (s.slotHeld <==> InPublication(s.task))
    && (s.published <==> s.task.FlagStored? || s.task.Notifying? || s.task.TaskDone?)
    && (s.state.CLOSED? <==> s.task.ClosedStored? || s.published)
    && s.notifications == (if s.task.TaskDone? then 1 else 0)
  }

  /** One holder at a time decides, and only it may be between marking and
      spawning. */
  predicate CallerOk(s: Session, c: CallerId)
    requires c in s.callers
  {
    match s.callers[c]
    case Holding => s.lock == Some(c)
    case Marked => s.lock == Some(c) && !s.completion && !s.state.ACTIVE?
    case Releasing => s.lock == Some(c) && s.completion
    case Entering => s.completion
    case Registered(ticket) => s.completion && ticket <= s.notifications
    case Parked(ticket) => s.completion && ticket == 0
    case Returned(outcome) => s.published && s.result == Some(outcome)
    case _ => true
  }

  /** Whoever holds the lock will release it. */
  predicate LockOk(s: Session) {
    s.lock.Some? ==>
      && s.lock.value in s.callers
      && (var at := s.callers[s.lock.value]; at.Holding? || at.Marked? || at.Releasing?)
  }

  ghost predicate SessionOk(s: Session) {
    && StartOk(s) && PublicationOk(s) && LockOk(s)
    && (forall c :: c in s.callers ==> CallerOk(s, c))
  }

  lemma StepKeepsProtocol(s: Session, a: Action)
    requires StartOk(s) && PublicationOk(s) && LockOk(s) && Enabled(s, a)
    requires forall c :: c in s.callers ==> CallerOk(s, c)
    ensures StartOk(Do(s, a)) && PublicationOk(Do(s, a)) && LockOk(Do(s, a))
    ensures s.result.Some? ==> Do(s, a).result == s.result
  {
    if a.Spawn? || a.Mark? || a.Release? { assert CallerOk(s, a.caller); }
    if s.lock.Some? { assert CallerOk(s, s.lock.value); }
  }

  predicate ByCaller(a: Action) { !a.EndService? && !a.EndChild? && !a.Advance? }

  lemma OwnStepStands(s: Session, a: Action)
    requires StartOk(s) && PublicationOk(s) && Enabled(s, a) && ByCaller(a)
    requires a.caller in s.callers ==> CallerOk(s, a.caller)
    ensures a.caller in Do(s, a).callers && CallerOk(Do(s, a), a.caller)
  {
  }

  /** Another caller's step leaves this one's footing alone. */
  lemma OtherStepStands(s: Session, a: Action, c: CallerId)
    requires StartOk(s) && PublicationOk(s) && LockOk(s) && Enabled(s, a) && ByCaller(a) && a.caller != c
    requires c in s.callers && CallerOk(s, c) && (a.caller in s.callers ==> CallerOk(s, a.caller))
    ensures c in Do(s, a).callers && CallerOk(Do(s, a), c)
  {
    hide StartOk, PublicationOk;
    if a.Spawn? { SpawnIsFirst(s, a.caller); }
  }

  lemma SpawnIsFirst(s: Session, c: CallerId)
    requires At(s, c, Marked) && CallerOk(s, c)
    ensures s.lock == Some(c) && !s.completion
  {
  }

  lemma CleanupStepStands(s: Session, a: Action, c: CallerId)
    requires StartOk(s) && PublicationOk(s) && Enabled(s, a) && !ByCaller(a)
    requires c in s.callers && CallerOk(s, c)
    ensures c in Do(s, a).callers && CallerOk(Do(s, a), c)
  {
  }

  lemma StepKeepsCaller(s: Session, a: Action, c: CallerId)
    requires StartOk(s) && PublicationOk(s) && LockOk(s) && Enabled(s, a)
    requires forall d :: d in s.callers ==> CallerOk(s, d)
    ensures c in Do(s, a).callers ==> CallerOk(Do(s, a), c)
  {
    hide StartOk, PublicationOk, LockOk, CallerOk, Enabled;
    if ByCaller(a) && a.caller == c {
      OwnStepStands(s, a);
    } else if c in s.callers {
      if ByCaller(a) { OtherStepStands(s, a, c); } else { CleanupStepStands(s, a, c); }
    }
  }

  lemma StepKeepsSession(s: Session, a: Action)
    requires SessionOk(s) && Enabled(s, a)
    ensures SessionOk(Do(s, a))
    ensures s.result.Some? ==> Do(s, a).result == s.result
    ensures a.Cancel? ==> Do(s, a) == Move(s, a.caller, Dropped)
  {
    hide StartOk, PublicationOk, LockOk, CallerOk, Enabled;
    StepKeepsProtocol(s, a);
    forall c | c in Do(s, a).callers ensures CallerOk(Do(s, a), c) { StepKeepsCaller(s, a, c); }
  }

  lemma {:induction false} EveryRunIsOk(actions: seq<Action>)
    ensures SessionOk(Run(actions))
  {
    hide SessionOk, Do;
    if actions == [] {
      assert SessionOk(OPEN) by { OpenIsOk(); }
    } else {
      EveryRunIsOk(actions[..|actions| - 1]);
      var s := Run(actions[..|actions| - 1]);
      if Enabled(s, actions[|actions| - 1]) { StepKeepsSession(s, actions[|actions| - 1]); }
    }
  }

  lemma OpenIsOk()
    ensures SessionOk(OPEN)
  {
  }

  /** The result of a shutdown: a service that did not stop by closing or being
      cancelled first, then a child that was not reaped, else success. */
  predicate Reports(service: ServiceEnd, child: ChildEnd, outcome: Outcome) {
    var stopped := service == QuitClosed || service == QuitCancelled;
    if !stopped then outcome == Err(ServiceShutdownFailed(service))
    else if child != ChildReaped then outcome == Err(ChildShutdownFailed(child))
    else outcome == Ok(())
  }

  /** Over every interleaving: cleanup starts at most once; a published result
      means both workers ended; whoever returns sees CLOSED and the one stored
      result, with a service failure first. */
  lemma ShutdownIsSafe(actions: seq<Action>, c: CallerId)
    ensures var s := Run(actions);
            && s.starts <= 1
            && (s.published ==> s.service.Ended? && s.child.Ended? && s.state == CLOSED)
            && (c in s.callers && s.callers[c].Returned? ==>
                  && s.state == CLOSED && s.service.Ended? && s.child.Ended?
                  && s.result == Some(s.callers[c].outcome)
                  && Reports(s.service.end, s.child.end, s.callers[c].outcome))
  {
    EveryRunIsOk(actions);
    var s := Run(actions);
    assert c in s.callers ==> CallerOk(s, c);
  }

  lemma {:induction false} ResultIsStable(actions: seq<Action>, n: nat)
    requires n <= |actions| && Run(actions[..n]).result.Some?
    ensures Run(actions).result == Run(actions[..n]).result
    decreases |actions|
  {
    hide SessionOk, Do;
    if n < |actions| {
      var front := actions[..|actions| - 1];
      assert front[..n] == actions[..n];
      ResultIsStable(front, n);
      EveryRunIsOk(front);
      if Enabled(Run(front), actions[|actions| - 1]) { StepKeepsSession(Run(front), actions[|actions| - 1]); }
    } else {
      assert actions[..n] == actions;
    }
  }

  /** Two callers that return, at whatever times, return the same result. */
  lemma CallersAgree(actions: seq<Action>, n: nat, c: CallerId, d: CallerId)
    requires n <= |actions|
    requires c in Run(actions[..n]).callers && Run(actions[..n]).callers[c].Returned?
    requires d in Run(actions).callers && Run(actions).callers[d].Returned?
    ensures Run(actions[..n]).callers[c] == Run(actions).callers[d]
  {
    hide Do, Run, Enabled, StartOk, PublicationOk, LockOk;
    EveryRunIsOk(actions[..n]);
    EveryRunIsOk(actions);
    assert CallerOk(Run(actions[..n]), c) && CallerOk(Run(actions), d);
    ResultIsStable(actions, n);
  }

  // ---- no waiter is left behind ----

  /** The caller's own next step. */
  function NextOf(c: CallerId, at: Caller): Action {
    match at
    case Queued => Acquire(c)
    case Holding => Mark(c)
    case Marked => Spawn(c)
    case Releasing => Release(c)
    case Entering => Register(c)
    case Registered(_) => Check(c)
    case Parked(_) => Wake(c)
    case _ => Call(c)
  }

  /** How many own steps are left at most. A parked caller is past its check until
      the one wakeup, and has to check again after it. */
  function StepsLeft(at: Caller, done: bool): nat {
    match at
    case Queued => 9
    case Holding => 8
    case Marked => 7
    case Releasing => 6
    case Entering => if done then 2 else 5
    case Registered(_) => if done then 1 else 4
    case Parked(_) => 3
    case _ => 0
  }

  /** Once cleanup is done no caller can miss it: one that is past the lock always
      has its own step enabled, each brings it nearer to returning, and the lock
      is never held by anyone who cannot release it. */
  lemma NoMissedWakeup(s: Session, c: CallerId)
    requires SessionOk(s) && s.task.TaskDone? && c in s.callers && StepsLeft(s.callers[c], true) > 0
    ensures Enabled(s, NextOf(c, s.callers[c]))
            || (s.callers[c].Queued? && s.lock.Some? && s.lock.value in s.callers
                && 5 < StepsLeft(s.callers[s.lock.value], true) < 9
                && Enabled(s, NextOf(s.lock.value, s.callers[s.lock.value])))
    ensures Enabled(s, NextOf(c, s.callers[c])) ==>
              StepsLeft(Do(s, NextOf(c, s.callers[c])).callers[c], true) < StepsLeft(s.callers[c], true)
    ensures Enabled(s, NextOf(c, s.callers[c])) && StepsLeft(s.callers[c], true) == 1 ==>
              Do(s, NextOf(c, s.callers[c])).callers[c] == Returned(s.result.value)
  {
    assert CallerOk(s, c);
    if s.lock.Some? { assert CallerOk(s, s.lock.value); }
  }

  /** While cleanup is under way something other than the callers can always move
      once the workers end, so the result does come out. */
  lemma CleanupGoesOn(s: Session)
    requires SessionOk(s) && s.completion && !s.task.TaskDone?
    ensures Enabled(s, Advance) || s.service.Running? || s.child.Running?
    ensures Enabled(s, Advance) ==> TaskLeft(Do(s, Advance).task) < TaskLeft(s.task)
  {
  }

  function TaskLeft(task: Task): nat {
    match task
    case Absent => 8
    case Joining => 7
    case Publishing(_) => 6
    case Storing(_) => 5
    case ResultStored => 4
    case ClosedStored => 3
    case FlagStored => 2
    case Notifying => 1
    case TaskDone => 0
  }

  // ---- every run ends ----

  function WorkerLeft<E>(w: Worker<E>): nat { if w.NotStarted? then 2 else if w.Running? then 1 else 0 }

  function LeftOf(callers: map<CallerId, Caller>, c: CallerId, done: bool): nat {
    if c in callers then StepsLeft(callers[c], done) else 0
  }

  /** Steps left to the callers below the bound. */
  function CallersLeft(callers: map<CallerId, Caller>, done: bool, bound: nat): nat {
    if bound == 0 then 0 else CallersLeft(callers, done, bound - 1) + LeftOf(callers, bound - 1, done)
  }

  /** Steps left to the whole session when nobody calls `shutdown` any more. */
  function Left(s: Session, bound: nat): nat {
    CallersLeft(s.callers, s.task.TaskDone?, bound) + TaskLeft(s.task) + WorkerLeft(s.service) + WorkerLeft(s.child)
  }

  predicate CallersBelow(s: Session, bound: nat) { forall c :: c in s.callers ==> c < bound }

  lemma {:induction false} MovedLeft(callers: map<CallerId, Caller>, done: bool, bound: nat, c: CallerId, to: Caller)
    requires c in callers
    ensures c < bound ==>
              CallersLeft(callers[c := to], done, bound) + StepsLeft(callers[c], done)
              == CallersLeft(callers, done, bound) + StepsLeft(to, done)
    ensures c >= bound ==> CallersLeft(callers[c := to], done, bound) == CallersLeft(callers, done, bound)
  {
    if bound > 0 { MovedLeft(callers, done, bound - 1, c, to); }
  }

  lemma {:induction false} DoneLowers(callers: map<CallerId, Caller>, bound: nat)
    ensures CallersLeft(callers, true, bound) <= CallersLeft(callers, false, bound)
  {
    if bound > 0 { DoneLowers(callers, bound - 1); }
  }

  /** A caller's step uses up one of its own. */
  lemma OwnStepShrinks(s: Session, a: Action)
    requires SessionOk(s) && Enabled(s, a) && ByCaller(a) && !a.Call?
    ensures a.caller in s.callers && a.caller in Do(s, a).callers
    ensures StepsLeft(Do(s, a).callers[a.caller], s.task.TaskDone?)
            < StepsLeft(s.callers[a.caller], s.task.TaskDone?)
    ensures Do(s, a).callers == s.callers[a.caller := Do(s, a).callers[a.caller]]
    ensures a.Spawn? || (Do(s, a).task == s.task && Do(s, a).service == s.service && Do(s, a).child == s.child)
  {
    assert CallerOk(s, a.caller);
  }

  lemma SpawnShrinks(s: Session, c: CallerId)
    requires SessionOk(s) && Enabled(s, Spawn(c))
    ensures var after := Do(s, Spawn(c));
            && TaskLeft(after.task) < TaskLeft(s.task) && !s.task.TaskDone? && !after.task.TaskDone?
            && WorkerLeft(after.service) < WorkerLeft(s.service) && WorkerLeft(after.child) < WorkerLeft(s.child)
  {
    assert CallerOk(s, c);
  }

  lemma CleanupStepShrinks(s: Session, a: Action)
    requires SessionOk(s) && Enabled(s, a) && !ByCaller(a)
    ensures var after := Do(s, a);
            && after.callers == s.callers && (s.task.TaskDone? ==> after.task.TaskDone?)
            && TaskLeft(after.task) + WorkerLeft(after.service) + WorkerLeft(after.child)
               < TaskLeft(s.task) + WorkerLeft(s.service) + WorkerLeft(s.child)
  {
  }

  /** Every step but a new call leaves less to do. */
  lemma StepShrinks(s: Session, a: Action, bound: nat)
    requires SessionOk(s) && CallersBelow(s, bound) && Enabled(s, a) && !a.Call?
    ensures Left(Do(s, a), bound) < Left(s, bound) && CallersBelow(Do(s, a), bound)
  {
    hide SessionOk, Enabled, Do, StepsLeft, TaskLeft, WorkerLeft, CallersLeft;
    var done := s.task.TaskDone?;
    if ByCaller(a) {
      OwnStepShrinks(s, a);
      MovedLeft(s.callers, done, bound, a.caller, Do(s, a).callers[a.caller]);
      if a.Spawn? { SpawnShrinks(s, a.caller); }
    } else {
      CleanupStepShrinks(s, a);
      DoneLowers(s.callers, bound);
    }
  }

  /** Nothing but a new call can happen. */
  ghost predicate AtRest(s: Session) { forall a :: Enabled(s, a) ==> a.Call? }

  lemma RestMeansReturned(s: Session)
    requires SessionOk(s) && AtRest(s)
    ensures forall c :: c in s.callers ==> s.callers[c].Returned? || s.callers[c].Dropped?
    ensures s.completion ==> s.task.TaskDone?
  {
    hide StartOk, PublicationOk;
    RestMeansDone(s);
    forall c | c in s.callers ensures s.callers[c].Returned? || s.callers[c].Dropped? {
      assert CallerOk(s, c);
      var a := NextOf(c, s.callers[c]);
      assert Enabled(s, a) ==> a.Call?;
      if s.task.TaskDone? && StepsLeft(s.callers[c], true) > 0 { NoMissedWakeup(s, c); }
      if s.lock.Some? {
        assert CallerOk(s, s.lock.value);
        var b := NextOf(s.lock.value, s.callers[s.lock.value]);
        assert Enabled(s, b) ==> b.Call?;
      }
    }
  }

  lemma RestMeansDone(s: Session)
    requires SessionOk(s) && AtRest(s)
    ensures s.completion ==> s.task.TaskDone?
  {
    Resting(s, Advance);
    Resting(s, EndService(QuitClosed));
    Resting(s, EndChild(ChildReaped));
    if s.completion && !s.task.TaskDone? { CleanupGoesOn(s); }
  }

  lemma Resting(s: Session, a: Action)
    requires AtRest(s) && !a.Call?
    ensures !Enabled(s, a)
  {
  }

  /** Steps that can each happen in turn, none of them a new call. */
  ghost predicate Proper(s: Session, actions: seq<Action>)
    decreases |actions|
  {
    actions == [] ||
    (Enabled(s, actions[0]) && !actions[0].Call? && Proper(Do(s, actions[0]), actions[1..]))
  }

  function DoAll(s: Session, actions: seq<Action>): Session
    requires Proper(s, actions)
    decreases |actions|
  {
    if actions == [] then s else DoAll(Do(s, actions[0]), actions[1..])
  }

  lemma {:induction false} RunsAreBounded(s: Session, actions: seq<Action>, bound: nat)
    requires SessionOk(s) && CallersBelow(s, bound) && Proper(s, actions)
    ensures SessionOk(DoAll(s, actions)) && |actions| + Left(DoAll(s, actions), bound) <= Left(s, bound)
    decreases |actions|
  {
    hide SessionOk, CallersBelow, Left, Do, Enabled;
    if actions != [] {
      StepKeepsSession(s, actions[0]);
      StepShrinks(s, actions[0], bound);
      RunsAreBounded(Do(s, actions[0]), actions[1..], bound);
    }
  }

  /** Whatever has happened so far: once nobody calls `shutdown` any more, only so
      many steps are left, in whatever order they are taken, and when none is
      possible every caller has returned or was dropped - all of them with the one
      result. */
  lemma EveryCallerReturns(before: seq<Action>, after: seq<Action>, bound: nat)
    requires CallersBelow(Run(before), bound) && Proper(Run(before), after)
    ensures |after| <= Left(Run(before), bound)
    ensures var end := DoAll(Run(before), after);
            AtRest(end) ==>
              forall c :: c in end.callers && !end.callers[c].Dropped? ==>
                end.callers[c].Returned? && end.result == Some(end.callers[c].outcome)
  {
    hide SessionOk, CallersBelow, Left, Do, Enabled;
    EveryRunIsOk(before);
    RunsAreBounded(Run(before), after, bound);
    var end := DoAll(Run(before), after);
    if AtRest(end) {
      RestMeansReturned(end);
      forall c | c in end.callers && end.callers[c].Returned?
        ensures end.result == Some(end.callers[c].outcome)
      {
        ReturnedSeesResult(end, c);
      }
    }
  }

  lemma ReturnedSeesResult(s: Session, c: CallerId)
    requires SessionOk(s) && c in s.callers && s.callers[c].Returned?
    ensures s.result == Some(s.callers[c].outcome)
  {
    assert CallerOk(s, c);
  }
}
