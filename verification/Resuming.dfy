/** Stopping a run at a committed boundary and continuing from it is the same as
    never having stopped (crates/group-agent-core/src/runtime.rs:392, 429-438,
    1069-1327, 1334-1518). */
module Resuming {
  import opened Base
  import opened Compiled
  import opened Runtime
  import opened Frontiers
  import opened Runs

  /** The boundary reached after n committed super-steps. */
  function BoundaryAt(p: Position, trace: RunTrace, n: nat): Position
    requires n <= |trace.committed|
  {
    if n == 0 then p else trace.committed[n - 1]
  }

  /** The resume value is spent by the first committed super-step. */
  function ResumeAt(resume: Option<Resume>, n: nat): Option<Resume> { if n == 0 then resume else None }

  lemma BoundariesAreFrontiers(g: CompiledGraph, ops: StateOps, mode: CheckpointMode, p: Position,
                               resume: Option<Resume>, limit: nat, maxSteps: nat, schedule: Schedule, n: nat)
    requires WellFormed(g) && FrontierOk(g, p.frontier) && CompletesAll(schedule)
    requires n <= |Run(g, ops, mode, p, resume, limit, maxSteps, schedule).committed|
    ensures FrontierOk(g, BoundaryAt(p, Run(g, ops, mode, p, resume, limit, maxSteps, schedule), n).frontier)
    ensures BoundaryAt(p, Run(g, ops, mode, p, resume, limit, maxSteps, schedule), n).steps >= p.steps
    ensures n > 0 ==> BoundaryAt(p, Run(g, ops, mode, p, resume, limit, maxSteps, schedule), n).steps <= limit
    decreases n
  {
    hide WellFormed, CompletesAll, Superstep, Candidate, RealNodes;
    if n > 0 {
      var order := OrderOf(schedule, p);
      SuperstepKeepsFrontier(g, ops, mode, p, resume, order);
      StepCounts(g, ops, mode, p, resume, order);
      var next := Superstep(g, ops, mode, p, resume, order).next;
      BoundariesAreFrontiers(g, ops, mode, next, None, limit, maxSteps, schedule, n - 1);
    }
  }

  /** A run from any of its own boundaries, under the same limit, is the rest of
      the run. */
  lemma {:induction false} RunSplits(g: CompiledGraph, ops: StateOps, mode: CheckpointMode, p: Position,
                                     resume: Option<Resume>, limit: nat, maxSteps: nat, schedule: Schedule, n: nat)
    requires WellFormed(g) && FrontierOk(g, p.frontier) && CompletesAll(schedule)
    requires n <= |Run(g, ops, mode, p, resume, limit, maxSteps, schedule).committed|
    ensures var trace := Run(g, ops, mode, p, resume, limit, maxSteps, schedule);
            var q := BoundaryAt(p, trace, n);
            && FrontierOk(g, q.frontier)
            && Run(g, ops, mode, q, ResumeAt(resume, n), limit, maxSteps, schedule)
               == RunTrace(trace.committed[n..], trace.ending)
    decreases n
  {
    hide WellFormed, CompletesAll, Run, FrontierOk;
    var trace := Run(g, ops, mode, p, resume, limit, maxSteps, schedule);
    if n == 0 {
      assert trace.committed[0..] == trace.committed;
    } else {
      RunUnfolds(g, ops, mode, p, resume, limit, maxSteps, schedule);
      var next := trace.committed[0];
      RunSplits(g, ops, mode, next, None, limit, maxSteps, schedule, n - 1);
      var rest := RunTrace(trace.committed[1..], trace.ending);
      assert trace.committed[n..] == rest.committed[n - 1..];
      assert BoundaryAt(p, trace, n) == BoundaryAt(next, rest, n - 1);
    }
  }

  ghost predicate OutOfBudget(ending: Ending) { ending.Failed? && ending.error.MaxStepsExceeded? }

  /** A larger budget only extends a run, and changes nothing unless the run
      ended by exhausting the smaller one. */
  lemma {:induction false} LargerBudget(g: CompiledGraph, ops: StateOps, mode: CheckpointMode, p: Position,
                                        resume: Option<Resume>, limit: nat, maxSteps: nat, limit': nat, maxSteps': nat,
                                        schedule: Schedule)
    requires WellFormed(g) && FrontierOk(g, p.frontier) && CompletesAll(schedule) && limit <= limit'
    ensures var small := Run(g, ops, mode, p, resume, limit, maxSteps, schedule);
            var large := Run(g, ops, mode, p, resume, limit', maxSteps', schedule);
            small.committed <= large.committed && (!OutOfBudget(small.ending) ==> small == large)
    decreases Remaining(limit, p.steps)
  {
    hide WellFormed, CompletesAll, Superstep, Candidate;
    if p.frontier != [] && |p.frontier| <= Remaining(limit, p.steps) {
      var order := OrderOf(schedule, p);
      SuperstepKeepsFrontier(g, ops, mode, p, resume, order);
      match Superstep(g, ops, mode, p, resume, order)
      case Advanced(next, _) =>
        StepCounts(g, ops, mode, p, resume, order);
        LargerBudget(g, ops, mode, next, None, limit, maxSteps, limit', maxSteps', schedule);
      case _ =>
    }
  }

  /** A run with its own budget, from a committed boundary. */
  function Invocation(g: CompiledGraph, ops: StateOps, mode: CheckpointMode, p: Position, resume: Option<Resume>,
                      maxSteps: nat, schedule: Schedule): RunTrace
    requires WellFormed(g) && FrontierOk(g, p.frontier) && CompletesAll(schedule)
  {
    Run(g, ops, mode, p, resume, StepLimit(p.steps, maxSteps), maxSteps, schedule)
  }

  /** A run with budget k, stopped after any n of its super-steps for any reason
      and continued to the end with budget m, has committed exactly what one run
      with budget k + m commits, and ends in the same state and counts. The three
      may complete their nodes in different orders. */
  lemma StopAndResume(g: CompiledGraph, ops: StateOps, mode: CheckpointMode, p: Position, resume: Option<Resume>,
                      k: nat, m: nat, a: Schedule, b: Schedule, whole: Schedule, n: nat)
    requires WellFormed(g) && FrontierOk(g, p.frontier) && p.steps <= USIZE_MAX
    requires CompletesAll(a) && CompletesAll(b) && CompletesAll(whole)
    requires n <= |Invocation(g, ops, mode, p, resume, k, a).committed|
    ensures var first := Invocation(g, ops, mode, p, resume, k, a);
            var q := BoundaryAt(p, first, n);
            && FrontierOk(g, q.frontier)
            && var second := Invocation(g, ops, mode, q, ResumeAt(resume, n), m, b);
               second.ending.Finished? ==>
                 Invocation(g, ops, mode, p, resume, k + m, whole)
                 == RunTrace(first.committed[..n] + second.committed, Finished)
  {
    hide WellFormed, CompletesAll, Run, Candidate, RealNodes;
    var limit, both := StepLimit(p.steps, k), StepLimit(p.steps, k + m);
    RunIgnoresSchedule(g, ops, mode, p, resume, limit, k, a, whole);
    var first := Run(g, ops, mode, p, resume, limit, k, whole);
    LargerBudget(g, ops, mode, p, resume, limit, k, both, k + m, whole);
    BoundariesAreFrontiers(g, ops, mode, p, resume, limit, k, whole, n);
    var q := BoundaryAt(p, first, n);
    RunIgnoresSchedule(g, ops, mode, q, ResumeAt(resume, n), StepLimit(q.steps, m), m, b, whole);
    Continued(g, ops, mode, p, resume, both, k + m, whole, n, q, StepLimit(q.steps, m), m);
  }

  lemma Continued(g: CompiledGraph, ops: StateOps, mode: CheckpointMode, p: Position, resume: Option<Resume>,
                  both: nat, maxSteps: nat, schedule: Schedule, n: nat, q: Position, limit: nat, m: nat)
    requires WellFormed(g) && FrontierOk(g, p.frontier) && CompletesAll(schedule) && limit <= both
    requires n <= |Run(g, ops, mode, p, resume, both, maxSteps, schedule).committed|
    requires q == BoundaryAt(p, Run(g, ops, mode, p, resume, both, maxSteps, schedule), n)
    ensures FrontierOk(g, q.frontier)
    ensures var second := Run(g, ops, mode, q, ResumeAt(resume, n), limit, m, schedule);
            var long := Run(g, ops, mode, p, resume, both, maxSteps, schedule);
            second.ending.Finished? ==> long == RunTrace(long.committed[..n] + second.committed, Finished)
  {
    hide WellFormed, CompletesAll, Run, Candidate, RealNodes;
    var long := Run(g, ops, mode, p, resume, both, maxSteps, schedule);
    RunSplits(g, ops, mode, p, resume, both, maxSteps, schedule, n);
    LargerBudget(g, ops, mode, q, ResumeAt(resume, n), limit, m, both, maxSteps, schedule);
    assert long.committed == long.committed[..n] + long.committed[n..];
  }

  /** The other way round: whatever an unbroken run ends in, stopping it after
      any n super-steps and continuing with at least the same budget ends in. */
  lemma ResumeReachesTheEnd(g: CompiledGraph, ops: StateOps, mode: CheckpointMode, p: Position,
                            resume: Option<Resume>, k: nat, m: nat, schedule: Schedule, n: nat)
    requires WellFormed(g) && FrontierOk(g, p.frontier) && CompletesAll(schedule) && k <= m
    requires n <= |Invocation(g, ops, mode, p, resume, k, schedule).committed|
    requires !OutOfBudget(Invocation(g, ops, mode, p, resume, k, schedule).ending)
    ensures var whole := Invocation(g, ops, mode, p, resume, k, schedule);
            var q := BoundaryAt(p, whole, n);
            && FrontierOk(g, q.frontier)
            && Invocation(g, ops, mode, q, ResumeAt(resume, n), m, schedule)
               == RunTrace(whole.committed[n..], whole.ending)
  {
    hide WellFormed, CompletesAll, Run, Candidate, RealNodes;
    var limit := StepLimit(p.steps, k);
    BoundariesAreFrontiers(g, ops, mode, p, resume, limit, k, schedule, n);
    var q := BoundaryAt(p, Run(g, ops, mode, p, resume, limit, k, schedule), n);
    RunSplits(g, ops, mode, p, resume, limit, k, schedule, n);
    LargerBudget(g, ops, mode, q, ResumeAt(resume, n), limit, k, StepLimit(q.steps, m), m, schedule);
  }

  /** A read-only replay, a checkpointed run and an unsaved one commit the same
      boundaries; they can differ only once a node asks to be interrupted. */
  lemma {:induction false} ModeMattersOnlyForInterrupts(g: CompiledGraph, ops: StateOps, a: CheckpointMode,
                                                        b: CheckpointMode, p: Position, resume: Option<Resume>,
                                                        limit: nat, maxSteps: nat, schedule: Schedule)
    requires WellFormed(g) && FrontierOk(g, p.frontier) && CompletesAll(schedule)
    ensures var ra := Run(g, ops, a, p, resume, limit, maxSteps, schedule);
            var rb := Run(g, ops, b, p, resume, limit, maxSteps, schedule);
            ra.committed == rb.committed && (ra.ending.Finished? <==> rb.ending.Finished?)
    decreases Remaining(limit, p.steps)
  {
    hide WellFormed, CompletesAll, Superstep, Candidate;
    if p.frontier != [] && |p.frontier| <= Remaining(limit, p.steps) {
      var order := OrderOf(schedule, p);
      SuperstepIgnoresMode(g, ops, a, b, p, resume, order);
      SuperstepKeepsFrontier(g, ops, a, p, resume, order);
      match Superstep(g, ops, a, p, resume, order)
      case Advanced(next, _) =>
        StepCounts(g, ops, a, p, resume, order);
        ModeMattersOnlyForInterrupts(g, ops, a, b, next, None, limit, maxSteps, schedule);
      case _ =>
    }
  }

  lemma SuperstepIgnoresMode(g: CompiledGraph, ops: StateOps, a: CheckpointMode, b: CheckpointMode, p: Position,
                             resume: Option<Resume>, order: seq<nat>)
    requires RealNodes(g, p.frontier) && p.frontier != [] && IsCompletionOrder(order, |p.frontier|)
    ensures Superstep(g, ops, a, p, resume, order).Advanced? || Superstep(g, ops, b, p, resume, order).Advanced? ==>
              Superstep(g, ops, a, p, resume, order) == Superstep(g, ops, b, p, resume, order)
  {
    hide RouteOn, IsCompletionOrder, NodeResult;
    CommitIgnoresMode(g, ops, a, b, p, resume, order);
  }

  lemma CommitIgnoresMode(g: CompiledGraph, ops: StateOps, a: CheckpointMode, b: CheckpointMode, p: Position,
                          resume: Option<Resume>, order: seq<nat>)
    requires RealNodes(g, p.frontier) && p.frontier != [] && IsCompletionOrder(order, |p.frontier|)
    ensures CommitFrontier(g, ops, a, p, resume, order).Committed?
            || CommitFrontier(g, ops, b, p, resume, order).Committed?
            ==> CommitFrontier(g, ops, a, p, resume, order) == CommitFrontier(g, ops, b, p, resume, order)
  {
    hide NodeResult, ParallelFault;
    if |p.frontier| > 1 {
      NoParallelFault(g, a, p, resume, order);
      NoParallelFault(g, b, p, resume, order);
    }
  }
}
