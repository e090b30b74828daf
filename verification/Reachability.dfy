/** What an execution writes, the transition system of concurrent runs writes too:
    every store this code leaves behind is a reachable one
    (crates/group-agent-core/src/runtime.rs:369-874, 1069-1518). */
module Reachability {
  import opened Base
  import opened Domain
  import opened Compiled
  import opened Runtime
  import opened Frontiers
  import opened Runs
  import opened Resuming
  import opened Records
  import opened CheckpointStore
  import opened Saving
  import opened Loading
  import opened Execution
  import opened LineageSoundness

  /** Some interleaving of runs over this graph leaves this store behind. */
  ghost predicate Reachable(sys: System, s: Store) { exists actions :: Acts(sys, actions).store == s }

  function SystemOf(job: Job): System { System(job.g, job.ops, job.codec) }

  lemma {:induction false} ActsJoin(sys: System, w: World, a: seq<Action>, b: seq<Action>)
    ensures ActsFrom(sys, w, a + b) == ActsFrom(sys, ActsFrom(sys, w, a), b)
  {
    hide Act;
    if b == [] {
      assert a + b == a;
    } else {
      var last := |b| - 1;
      ActsJoin(sys, w, a, b[..last]);
      assert (a + b)[..|a + b| - 1] == a + b[..last];
    }
  }

  lemma OneAct(sys: System, w: World, action: Action)
    ensures ActsFrom(sys, w, [action]) == Act(sys, w, action)
  {
    hide Act;
    assert [action][..0] == [];
    assert ActsFrom(sys, w, []) == w;
  }

  /** A fresh store is reachable, so every store the entry points build up from it
      is. */
  lemma EmptyIsReachable(sys: System)
    ensures Reachable(sys, EMPTY_STORE)
  {
    assert Acts(sys, []) == START_WORLD;
  }

  // ---- a run in flight beside the execution ----

  /** A run in flight that stands where this execution starts. */
  ghost predicate Standing(job: Job, w: World, run: RunId) {
    && run in w.runs && w.store == job.start.store
    && w.runs[run] == Start(job.dest, job.start.parent, job.p, job.resume)
  }

  /** A run in flight that stands where this execution stands after n super-steps. */
  ghost predicate Mirrors(job: Job, n: nat, w: World, run: RunId)
    requires JobOk(job) && n <= |TraceOf(job).committed|
  {
    && run in w.runs && w.store == SavedBy(job, n).progress.store
    && var live := w.runs[run];
       && live.dest == job.dest && live.parent == SavedBy(job, n).progress.parent
       && live.at == BoundaryAt(job.p, TraceOf(job), n)
       && ResumeAt(live.resume, live.moves) == ResumeAt(job.resume, n)
  }

  lemma StandingMirrors(job: Job, w: World, run: RunId)
    requires JobOk(job) && Standing(job, w, run) && SavedBy(job, 0) == SaveRun(job.start, None)
    ensures Mirrors(job, 0, w, run)
  {
    hide JobOk, TraceOf, SavedBy;
  }

  lemma NothingToOpen(job: Job)
    requires JobOk(job) && (!job.saveEmpty || job.p.frontier != [] || !ShouldSave(job.dest, true))
    ensures SavedBy(job, 0) == SaveRun(job.start, None)
  {
    hide JobOk, TraceOf, SavedBy, VisitedBy, Explains, Underway, SaveBoundary;
    Begin(job);
  }

  lemma BoundaryIsFrontier(job: Job, n: nat)
    requires JobOk(job) && n <= |TraceOf(job).committed|
    ensures FrontierOk(job.g, BoundaryAt(job.p, TraceOf(job), n).frontier)
  {
    hide WellFormed, CompletesAll, Candidate, Run;
    BoundariesAreFrontiers(job.g, job.ops, job.dest.mode, job.p, job.resume, StepLimit(job.p.steps, job.maxSteps),
                           job.maxSteps, job.env.schedule, n);
  }

  lemma FailureStays(job: Job, n: nat)
    requires JobOk(job) && n < |TraceOf(job).committed|
    ensures SavedBy(job, n).failure.Some? ==> SavedBy(job, n + 1) == SavedBy(job, n)
  {
    hide WellFormed, CompletesAll, Candidate, Run, SaveNext;
    SavedAreReal(job, n + 1);
    var positions := Opening(job.p, job.saveEmpty) + TraceOf(job).committed[..n + 1];
    assert positions[..|positions| - 1] == Opening(job.p, job.saveEmpty) + TraceOf(job).committed[..n];
  }

  lemma CommittedStep(job: Job, n: nat)
    requires JobOk(job) && n < |TraceOf(job).committed|
    ensures FrontierOk(job.g, BoundaryAt(job.p, TraceOf(job), n).frontier)
    ensures var cur := BoundaryAt(job.p, TraceOf(job), n);
            && cur.frontier != []
            && IsCompletionOrder(job.env.schedule(cur.superstep, |cur.frontier|), |cur.frontier|)
            && StepAt(job, n, cur).Advanced? && StepAt(job, n, cur).next == TraceOf(job).committed[n]
  {
    hide WellFormed, CompletesAll, Candidate, Superstep;
    var limit, trace := StepLimit(job.p.steps, job.maxSteps), TraceOf(job);
    RunSplits(job.g, job.ops, job.dest.mode, job.p, job.resume, limit, job.maxSteps, job.env.schedule, n);
    var cur := BoundaryAt(job.p, trace, n);
    var order := OrderOf(job.env.schedule, cur);
    SuperstepKeepsFrontier(job.g, job.ops, job.dest.mode, cur, ResumeAt(job.resume, n), order);
    assert trace.committed[n..][0] == trace.committed[n];
  }

  lemma SuspendingStep(job: Job)
    requires JobOk(job) && TraceOf(job).ending.Interrupted?
    ensures var cur := LastPosition(job.p, TraceOf(job));
            && FrontierOk(job.g, cur.frontier) && cur.frontier != []
            && IsCompletionOrder(job.env.schedule(cur.superstep, |cur.frontier|), |cur.frontier|)
            && StepAt(job, |TraceOf(job).committed|, cur) == Suspended(TraceOf(job).ending.payload)
  {
    hide WellFormed, CompletesAll, Candidate, Superstep;
    var limit, trace := StepLimit(job.p.steps, job.maxSteps), TraceOf(job);
    var n := |trace.committed|;
    RunSplits(job.g, job.ops, job.dest.mode, job.p, job.resume, limit, job.maxSteps, job.env.schedule, n);
    var cur := BoundaryAt(job.p, trace, n);
    assert cur == LastPosition(job.p, trace);
    var order := OrderOf(job.env.schedule, cur);
    assert trace.committed[n..] == [];
  }

  /** The move of the transition system that commits boundary n + 1 and saves it
      as the execution does. */
  ghost function MoveOf(job: Job, n: nat, run: RunId): Action
    requires JobOk(job) && n <= |TraceOf(job).committed|
  {
    var cur := BoundaryAt(job.p, TraceOf(job), n);
    MoveRun(run, job.env.schedule(cur.superstep, |cur.frontier|), job.env.ids(SavedBy(job, n).progress.saves))
  }

  lemma MirrorsNext(job: Job, n: nat, w: World, run: RunId)
    requires JobOk(job) && job.dest.mode.Enabled? && n < |TraceOf(job).committed|
    requires Mirrors(job, n, w, run) && SavedBy(job, n).failure.None?
    ensures var after := Act(SystemOf(job), w, MoveOf(job, n, run));
            && after.store == SavedBy(job, n + 1).progress.store
            && (SavedBy(job, n + 1).failure.None? ==> Mirrors(job, n + 1, after, run))
  {
    hide WellFormed, CompletesAll, Candidate, Superstep, Run, SaveBoundary, SavedBy, VisitedBy, TraceOf,
         IsCompletionOrder;
    CommittedStep(job, n);
    MoreSaved(job, n);
    BoundaryIsFrontier(job, n + 1);
  }

  /** One move per super-step leads the transition system to whatever the first n
      saves of an execution leave behind, up to the first refusal. */
  lemma {:induction false} SavesAreMoves(job: Job, n: nat, w: World, run: RunId) returns (actions: seq<Action>)
    requires JobOk(job) && job.dest.mode.Enabled? && n <= |TraceOf(job).committed|
    requires Mirrors(job, 0, w, run) && SavedBy(job, 0).failure.None?
    ensures var after := ActsFrom(SystemOf(job), w, actions);
            && after.store == SavedBy(job, n).progress.store
            && (SavedBy(job, n).failure.None? ==> Mirrors(job, n, after, run))
    decreases n
  {
    hide JobOk, SavedBy, TraceOf, Act, MoveOf;
    if n == 0 {
      actions := [];
    } else {
      var before := SavesAreMoves(job, n - 1, w, run);
      FailureStays(job, n - 1);
      if SavedBy(job, n - 1).failure.Some? {
        actions := before;
      } else {
        MirrorsNext(job, n - 1, ActsFrom(SystemOf(job), w, before), run);
        actions := before + [MoveOf(job, n - 1, run)];
        assert actions[..|actions| - 1] == before;
      }
    }
  }

  /** Saving a suspended node is one step of the transition system as well. */
  lemma SuspensionIsAStep(job: Job, w: World, run: RunId) returns (action: Action)
    requires JobOk(job) && job.dest.mode.Enabled? && TraceOf(job).ending.Interrupted?
    requires Mirrors(job, |TraceOf(job).committed|, w, run)
    ensures Act(SystemOf(job), w, action).store
            == InterruptSave(job, SavedBy(job, |TraceOf(job).committed|).progress).store
  {
    hide WellFormed, CompletesAll, Candidate, Superstep, Run, SaveBoundary, SavedBy, VisitedBy, TraceOf,
         IsCompletionOrder;
    var n := |TraceOf(job).committed|;
    SuspendingStep(job);
    var cur, saves := LastPosition(job.p, TraceOf(job)), SavedBy(job, n).progress.saves;
    action := SuspendRun(run, job.env.schedule(cur.superstep, |cur.frontier|), job.env.ids(saves),
                         job.env.interruptIds(saves));
  }

  /** So is saving an invocation that has nothing to run. */
  lemma OpeningIsAStep(job: Job, w: World, run: RunId) returns (action: Action)
    requires JobOk(job) && Standing(job, w, run) && ShouldSave(job.dest, true)
    requires job.saveEmpty && job.p.frontier == [] && job.start.parent.None?
    ensures TraceOf(job) == RunTrace([], Finished)
    ensures Act(SystemOf(job), w, action).store == SavedBy(job, 0).progress.store
  {
    hide WellFormed, CompletesAll, Candidate, Superstep, SaveBoundary, SavedBy, VisitedBy, Explains, Underway;
    Begin(job);
    action := SaveEmptyRun(run, job.env.ids(job.start.saves));
  }

  // ---- whole executions ----

  /** What the store can be after an execution. */
  lemma StoresAfter(job: Job, n: nat, outcome: Outcome, after: Store)
    requires JobOk(job) && Explains(job, n, outcome, after)
    ensures n <= |TraceOf(job).committed|
    ensures || after == job.start.store
            || after == SavedBy(job, n).progress.store
            || (n == |TraceOf(job).committed| && SavedBy(job, n).failure.None? && TraceOf(job).ending.Interrupted?
                && after == InterruptSave(job, SavedBy(job, n).progress).store)
  {
    hide JobOk, TraceOf, SavedBy, InterruptSave, VisitedBy;
  }

  /** However an execution ends - completed, suspended, failed, refused a save,
      cancelled - the transition system can leave the same store behind. */
  lemma ExecutionIsReachable(job: Job, n: nat, outcome: Outcome, after: Store, actions: seq<Action>, run: RunId)
    requires JobOk(job) && Explains(job, n, outcome, after) && job.dest.mode.Enabled?
    requires Standing(job, Acts(SystemOf(job), actions), run) && (job.saveEmpty ==> job.start.parent.None?)
    ensures Reachable(SystemOf(job), after)
  {
    hide JobOk, TraceOf, SavedBy, InterruptSave, VisitedBy, Explains, Standing, Mirrors, Act;
    var sys, w := SystemOf(job), Acts(SystemOf(job), actions);
    StoresAfter(job, n, outcome, after);
    StartIsReachable(job, actions, run);
    if after == job.start.store { return; }
    if job.saveEmpty && job.p.frontier == [] && ShouldSave(job.dest, true) {
      var opening := OpeningIsAStep(job, w, run);
      OneAct(sys, w, opening);
      Onwards(sys, actions, [opening]);
    } else {
      NothingToOpen(job);
      StandingMirrors(job, w, run);
      var moves := SavesAreMoves(job, n, w, run);
      Onwards(sys, actions, moves);
      if after != SavedBy(job, n).progress.store {
        var there := ActsFrom(sys, w, moves);
        var last := SuspensionIsAStep(job, there, run);
        OneAct(sys, there, last);
        ActsJoin(sys, w, moves, [last]);
        Onwards(sys, actions, moves + [last]);
      }
    }
  }

  lemma StartIsReachable(job: Job, actions: seq<Action>, run: RunId)
    requires Standing(job, Acts(SystemOf(job), actions), run)
    ensures Reachable(SystemOf(job), job.start.store)
  {
    hide Act;
  }

  lemma Onwards(sys: System, actions: seq<Action>, more: seq<Action>)
    ensures Reachable(sys, ActsFrom(sys, Acts(sys, actions), more).store)
  {
    hide Act;
    ActsJoin(sys, START_WORLD, actions, more);
    assert Acts(sys, actions + more).store == ActsFrom(sys, Acts(sys, actions), more).store;
  }

  /** An execution that may not write leaves the store it found. */
  lemma ReadOnlyLeavesTheStore(job: Job, n: nat, outcome: Outcome, after: Store)
    requires JobOk(job) && Explains(job, n, outcome, after) && !job.dest.mode.Enabled?
    ensures after == job.start.store && !outcome.RunInterrupted? && !outcome.RunUnsaved?
  {
    hide WellFormed, CompletesAll, Candidate, Run, InterruptSave, VisitedBy;
    NeverSuspends(job.g, job.ops, job.dest.mode, job.p, job.resume, StepLimit(job.p.steps, job.maxSteps), job.maxSteps,
                  job.env.schedule);
    SavedAreReal(job, n);
    ReadOnlyRunsWriteNothing(job.g, job.codec, job.dest, job.env.ids, job.start,
                             Opening(job.p, job.saveEmpty) + TraceOf(job).committed[..n]);
  }

  lemma {:induction false} NeverSuspends(g: CompiledGraph, ops: StateOps, mode: CheckpointMode, p: Position,
                                         resume: Option<Resume>, limit: nat, maxSteps: nat, schedule: Schedule)
    requires WellFormed(g) && FrontierOk(g, p.frontier) && CompletesAll(schedule) && !mode.Enabled?
    ensures !Run(g, ops, mode, p, resume, limit, maxSteps, schedule).ending.Interrupted?
    decreases Remaining(limit, p.steps)
  {
    hide WellFormed, CompletesAll, Superstep, Candidate;
    if p.frontier != [] && |p.frontier| <= Remaining(limit, p.steps) {
      var order := OrderOf(schedule, p);
      SuperstepKeepsFrontier(g, ops, mode, p, resume, order);
      StepCounts(g, ops, mode, p, resume, order);
      NoSuspension(g, ops, mode, p, resume, order);
      match Superstep(g, ops, mode, p, resume, order)
      case Advanced(next, _) => NeverSuspends(g, ops, mode, next, None, limit, maxSteps, schedule);
      case _ =>
    }
  }

  lemma NoSuspension(g: CompiledGraph, ops: StateOps, mode: CheckpointMode, p: Position, resume: Option<Resume>,
                     order: seq<nat>)
    requires RealNodes(g, p.frontier) && p.frontier != [] && IsCompletionOrder(order, |p.frontier|)
    requires !mode.Enabled?
    ensures !Superstep(g, ops, mode, p, resume, order).Suspended?
  {
    hide NodeResult, RouteAll, Settle, ParallelFault;
  }

  /** An execution from a harmless frontier never panics. */
  lemma HarmlessNeverPanics(job: Job, n: nat, outcome: Outcome, after: Store)
    requires JobOk(job) && Explains(job, n, outcome, after) && Harmless(job.g, job.p.frontier)
    ensures !outcome.RunPanicked?
  {
    hide WellFormed, CompletesAll, Candidate, Run, InterruptSave, VisitedBy, SavedBy, Harmless;
    HarmlessRunsNeverPanic(job.g, job.ops, job.dest.mode, job.p, job.resume, StepLimit(job.p.steps, job.maxSteps),
                           job.maxSteps, job.env.schedule);
  }

  // ---- how an execution starts ----

  lemma InvocationStands(job: Job, initial: State, actions: seq<Action>)
    requires Acts(SystemOf(job), actions).store == job.start.store && job.dest.mode.Enabled?
    requires job.start.parent.None? && job.resume.None? && EntryPosition(job.g, initial) == Some(job.p)
    ensures Standing(job, Acts(SystemOf(job), actions + [InvokeRun(job.dest.run, job.dest, initial)]), job.dest.run)
  {
    hide EntryPosition;
    var more := actions + [InvokeRun(job.dest.run, job.dest, initial)];
    assert more[..|more| - 1] == actions;
  }

  lemma ResumptionStands(job: Job, id: CheckpointId, actions: seq<Action>)
    requires Acts(SystemOf(job), actions).store == job.start.store && job.dest.mode.Enabled?
    requires job.start.parent == Some(id) && id in job.start.store.byId
    requires HeadOfDestination(job.start.store, job.dest) == Some(id)
    requires LoadsAs(job.g, job.codec, job.start.store.byId[id], job.p, job.resume)
    ensures Standing(job, Acts(SystemOf(job), actions + [ResumeRun(job.dest.run, job.dest, id, job.p, job.resume)]),
                     job.dest.run)
  {
    hide LoadsAs, HeadOfDestination;
    var more := actions + [ResumeRun(job.dest.run, job.dest, id, job.p, job.resume)];
    assert more[..|more| - 1] == actions;
  }

  lemma ForkStands(job: Job, before: Store, id: CheckpointId, actions: seq<Action>)
    requires Acts(SystemOf(job), actions).store == before && job.dest.mode.Enabled? && job.dest.branch.Some?
    requires job.start.parent == Some(id) && id in before.byId && before.byId[id].threadId == job.dest.thread
    requires LoadsAs(job.g, job.codec, before.byId[id], job.p, job.resume)
    requires OpenBranch(before, job.dest.thread, job.dest.branch.value, id).reply.Ok?
    requires job.start.store == OpenBranch(before, job.dest.thread, job.dest.branch.value, id).store
    ensures Standing(job, Acts(SystemOf(job), actions + [ForkRun(job.dest.run, job.dest, id, job.p, job.resume)]),
                     job.dest.run)
  {
    hide LoadsAs, OpenBranch;
    var more := actions + [ForkRun(job.dest.run, job.dest, id, job.p, job.resume)];
    assert more[..|more| - 1] == actions;
  }

  // ---- what a reachable store holds ----

  /** Every record that passes validation stands on a harmless frontier. */
  ghost predicate HoldsHarmless(g: CompiledGraph, s: Store) {
    forall id, frontier :: id in s.byId && Accepts(g, s.byId[id], frontier) ==> Harmless(g, frontier)
  }

  /** Everything a reachable store holds can be loaded into a run that never meets
      a mount beside another item. */
  lemma ReachableHoldsHarmless(sys: System, s: Store)
    requires SystemOk(sys) && Reachable(sys, s)
    ensures HoldsHarmless(sys.g, s) && StoreOk(s) && StoredPaths(s)
  {
    hide WellFormed, RoundTrips, LiveOk, Candidate, Accepts, Origin, Iterate, NextStep, StoreOk, Harmless, Act;
    var actions :| Acts(sys, actions).store == s;
    ReachableWorldIsOk(sys, actions);
    forall id | id in s.byId
      ensures RealPaths(s.byId[id].nextFrontier)
      ensures forall frontier :: Accepts(sys.g, s.byId[id], frontier) ==> Harmless(sys.g, frontier)
    {
      var e := EvidenceOf(sys, s.byId, id);
      RecordedIsAccepted(sys, s.byId[id], e.p);
      AcceptedResolves(sys.g, s.byId[id], e.p.frontier);
      forall frontier | Accepts(sys.g, s.byId[id], frontier) ensures frontier == e.p.frontier {
        AcceptedFrontierIsUnique(sys.g, s.byId[id], frontier, e.p.frontier);
      }
    }
  }

  /** Every stored path has a segment, as every `NodePath` does. */
  ghost predicate StoredPaths(s: Store) { forall id :: id in s.byId ==> RealPaths(s.byId[id].nextFrontier) }
}
