/** What a whole run is: super-steps that fit a budget, each as described for one
    super-step, from its start to the first that does not commit
    (crates/group-agent-core/src/runtime.rs:392-438, 467-475, 634-642, 876-890). */
module RunMeaning {
  import opened Base
  import opened Compiled
  import opened Runtime
  import opened Frontiers
  import opened Runs
  import opened Resuming
  import opened StepMeaning

  // ---- the budget ----

  /** A run that started at `from` with this budget may count so many steps, and a
      64-bit counter can hold them. */
  predicate WithinBudget(from: nat, maxSteps: nat, steps: nat) {
    steps <= from + maxSteps && steps <= 0xFFFF_FFFF_FFFF_FFFF
  }

  /** The first node of a frontier that no longer fits, and its step. */
  ghost predicate FirstBeyond(from: nat, maxSteps: nat, p: Position, k: nat) {
    && k < |p.frontier| && !WithinBudget(from, maxSteps, p.steps + k + 1)
    && (k > 0 ==> WithinBudget(from, maxSteps, p.steps + k))
  }

  /** The error carries the budget, the first node that does not fit and its step. */
  ghost predicate NamesFirstBeyond(g: CompiledGraph, from: nat, maxSteps: nat, p: Position, error: RunError) {
    exists k: nat ::
      && FirstBeyond(from, maxSteps, p, k) && p.frontier[k] < |g.items|
      && error == MaxStepsExceeded(maxSteps, PathAt(g, p.frontier[k]), p.steps + k + 1)
  }

  // ---- the run ----

  /** The n-th super-step commits this boundary. Only the first is handed the
      resume value. */
  ghost predicate StepCommits(g: CompiledGraph, ops: StateOps, mode: CheckpointMode, p: Position,
                              resume: Option<Resume>, maxSteps: nat, schedule: Schedule, trace: RunTrace, n: nat)
    requires n < |trace.committed|
  {
    var from := if n == 0 then p else trace.committed[n - 1];
    var order := schedule(from.superstep, |from.frontier|);
    && InGraph(g, from.frontier) && from.frontier != [] && Offsets(order, |from.frontier|)
    && WithinBudget(p.steps, maxSteps, from.steps + |from.frontier|)
    && exists boundaries ::
         Steps(g, ops, mode, from, if n == 0 then resume else None, order, Advanced(trace.committed[n], boundaries))
  }

  /** What the last boundary of a run says about how the run ended. */
  ghost predicate EndsAt(g: CompiledGraph, ops: StateOps, mode: CheckpointMode, p: Position, last: Position,
                         resume: Option<Resume>, maxSteps: nat, schedule: Schedule, ending: Ending)
  {
    if last.frontier == [] then ending == Finished
    else if !InGraph(g, last.frontier) then false
    else if !WithinBudget(p.steps, maxSteps, last.steps + |last.frontier|) then
      ending.Failed? && NamesFirstBeyond(g, p.steps, maxSteps, last, ending.error)
    else
      var order := schedule(last.superstep, |last.frontier|);
      && Offsets(order, |last.frontier|)
      && match ending
         case Finished => false
         case Interrupted(payload) => Steps(g, ops, mode, last, resume, order, Suspended(payload))
         case Failed(error) =>
           Steps(g, ops, mode, last, resume, order, StepFailed(error)) && !error.MaxStepsExceeded?
         case Panicked => Steps(g, ops, mode, last, resume, order, Panicking)
         case NeverSettles =>
           forall outcome: StepOutcome :: outcome.Spinning? || !Steps(g, ops, mode, last, resume, order, outcome)
  }

  /** The trace is the run from p with this budget. */
  ghost predicate IsRunOf(g: CompiledGraph, ops: StateOps, mode: CheckpointMode, p: Position, resume: Option<Resume>,
                          maxSteps: nat, schedule: Schedule, trace: RunTrace)
  {
    && (forall n :: 0 <= n < |trace.committed| ==>
          StepCommits(g, ops, mode, p, resume, maxSteps, schedule, trace, n))
    && EndsAt(g, ops, mode, p, LastPosition(p, trace), if trace.committed == [] then resume else None, maxSteps,
              schedule, trace.ending)
  }

  // ---- agreement ----

  lemma LimitMeans(from: nat, maxSteps: nat, p: Position)
    ensures |p.frontier| <= Remaining(StepLimit(from, maxSteps), p.steps) <==>
            p.frontier == [] || WithinBudget(from, maxSteps, p.steps + |p.frontier|)
    ensures |p.frontier| > Remaining(StepLimit(from, maxSteps), p.steps) ==>
              FirstBeyond(from, maxSteps, p, Remaining(StepLimit(from, maxSteps), p.steps))
  {
  }

  /** The run splits at its n-th boundary, and starts there with a super-step. */
  lemma CommitsNth(g: CompiledGraph, ops: StateOps, mode: CheckpointMode, p: Position, resume: Option<Resume>,
                   maxSteps: nat, schedule: Schedule, n: nat)
    requires WellFormed(g) && FrontierOk(g, p.frontier) && CompletesAll(schedule)
    requires n < |Invocation(g, ops, mode, p, resume, maxSteps, schedule).committed|
    ensures StepCommits(g, ops, mode, p, resume, maxSteps, schedule,
                        Invocation(g, ops, mode, p, resume, maxSteps, schedule), n)
  {
    hide WellFormed, CompletesAll, Run, Superstep, Candidate, Steps;
    var limit := StepLimit(p.steps, maxSteps);
    var trace := Invocation(g, ops, mode, p, resume, maxSteps, schedule);
    RunSplits(g, ops, mode, p, resume, limit, maxSteps, schedule, n);
    var from := BoundaryAt(p, trace, n);
    assert trace.committed[n..][0] == trace.committed[n];
    RunBegins(g, ops, mode, from, ResumeAt(resume, n), limit, maxSteps, schedule);
    LimitMeans(p.steps, maxSteps, from);
    var order := OrderOf(schedule, from);
    var outcome := Superstep(g, ops, mode, from, ResumeAt(resume, n), order);
    SuperstepMeans(g, ops, mode, from, ResumeAt(resume, n), order, outcome);
  }

  lemma RunBegins(g: CompiledGraph, ops: StateOps, mode: CheckpointMode, p: Position, resume: Option<Resume>,
                  limit: nat, maxSteps: nat, schedule: Schedule)
    requires WellFormed(g) && FrontierOk(g, p.frontier) && CompletesAll(schedule)
    ensures RealNodes(g, p.frontier)
    ensures var trace := Run(g, ops, mode, p, resume, limit, maxSteps, schedule);
            if p.frontier == [] then trace == RunTrace([], Finished)
            else if |p.frontier| > Remaining(limit, p.steps) then
              var k := Remaining(limit, p.steps);
              trace == RunTrace([], Failed(MaxStepsExceeded(maxSteps, PathAt(g, p.frontier[k]), p.steps + k + 1)))
            else
              var order := schedule(p.superstep, |p.frontier|);
              && IsCompletionOrder(order, |p.frontier|)
              && match Superstep(g, ops, mode, p, resume, order)
                 case StepFailed(error) => trace == RunTrace([], Failed(error))
                 case Suspended(payload) => trace == RunTrace([], Interrupted(payload))
                 case Spinning => trace == RunTrace([], NeverSettles)
                 case Panicking => trace == RunTrace([], Panicked)
                 case Advanced(next, _) => trace.committed != [] && trace.committed[0] == next
  {
    hide WellFormed, Superstep, Candidate;
    if p.frontier != [] { var order := OrderOf(schedule, p); }
  }

  /** A super-step never reports the budget. */
  lemma StepsKnowNoBudget(g: CompiledGraph, ops: StateOps, mode: CheckpointMode, p: Position, resume: Option<Resume>,
                          order: seq<nat>)
    requires RealNodes(g, p.frontier) && p.frontier != [] && IsCompletionOrder(order, |p.frontier|)
    ensures var outcome := Superstep(g, ops, mode, p, resume, order);
            outcome.StepFailed? ==> !outcome.error.MaxStepsExceeded?
  {
    hide NodeResult, RouteAll, Settle, IsCompletionOrder;
    OrderIsOffsets(order, |p.frontier|);
    if |p.frontier| > 1 { FaultsKnowNoBudget(g, mode, p, resume, order); }
  }

  lemma {:induction false} FaultsKnowNoBudget(g: CompiledGraph, mode: CheckpointMode, p: Position,
                                              resume: Option<Resume>, order: seq<nat>)
    requires RealNodes(g, p.frontier) && Offsets(order, |p.frontier|)
    ensures ParallelFault(g, mode, p, resume, order).Some? ==>
              !ParallelFault(g, mode, p, resume, order).value.MaxStepsExceeded?
  {
    hide NodeResult;
    if order != [] { FaultsKnowNoBudget(g, mode, p, resume, order[1..]); }
  }

  lemma EndMeans(g: CompiledGraph, ops: StateOps, mode: CheckpointMode, p: Position, last: Position,
                 resume: Option<Resume>, maxSteps: nat, schedule: Schedule)
    requires WellFormed(g) && FrontierOk(g, last.frontier) && CompletesAll(schedule)
    requires Run(g, ops, mode, last, resume, StepLimit(p.steps, maxSteps), maxSteps, schedule).committed == []
    ensures EndsAt(g, ops, mode, p, last, resume, maxSteps, schedule,
                   Run(g, ops, mode, last, resume, StepLimit(p.steps, maxSteps), maxSteps, schedule).ending)
  {
    hide WellFormed, CompletesAll, Run, Superstep, Candidate, Steps, FirstBeyond;
    var limit := StepLimit(p.steps, maxSteps);
    RunBegins(g, ops, mode, last, resume, limit, maxSteps, schedule);
    LimitMeans(p.steps, maxSteps, last);
    if last.frontier != [] && |last.frontier| <= Remaining(limit, last.steps) {
      var order := OrderOf(schedule, last);
      OrderIsOffsets(order, |last.frontier|);
      StepsKnowNoBudget(g, ops, mode, last, resume, order);
      forall outcome: StepOutcome | !outcome.Spinning?
        ensures Superstep(g, ops, mode, last, resume, order) == outcome <==>
                Steps(g, ops, mode, last, resume, order, outcome)
      {
        SuperstepMeans(g, ops, mode, last, resume, order, outcome);
      }
    }
  }

  /** The runtime's invocation is the run described here. */
  lemma InvocationMeans(g: CompiledGraph, ops: StateOps, mode: CheckpointMode, p: Position, resume: Option<Resume>,
                        maxSteps: nat, schedule: Schedule)
    requires WellFormed(g) && FrontierOk(g, p.frontier) && CompletesAll(schedule)
    ensures IsRunOf(g, ops, mode, p, resume, maxSteps, schedule,
                    Invocation(g, ops, mode, p, resume, maxSteps, schedule))
  {
    hide WellFormed, CompletesAll, Run, Candidate, StepCommits, EndsAt;
    var limit := StepLimit(p.steps, maxSteps);
    var trace := Invocation(g, ops, mode, p, resume, maxSteps, schedule);
    forall n | 0 <= n < |trace.committed|
      ensures StepCommits(g, ops, mode, p, resume, maxSteps, schedule, trace, n)
    {
      CommitsNth(g, ops, mode, p, resume, maxSteps, schedule, n);
    }
    var n := |trace.committed|;
    RunSplits(g, ops, mode, p, resume, limit, maxSteps, schedule, n);
    assert trace.committed[n..] == [];
    assert BoundaryAt(p, trace, n) == LastPosition(p, trace);
    EndMeans(g, ops, mode, p, LastPosition(p, trace), ResumeAt(resume, n), maxSteps, schedule);
  }

  // ---- what follows ----

  /** The boundaries whose frontier the run started. */
  ghost function Begun(trace: RunTrace): nat {
    if trace.ending.Finished? || (trace.ending.Failed? && trace.ending.error.MaxStepsExceeded?) then |trace.committed|
    else |trace.committed| + 1
  }

  /** No run starts more nodes than its budget. It ends for want of budget exactly
      when the frontier it stands at is not empty and does not fit any more. */
  lemma BudgetIsKept(g: CompiledGraph, ops: StateOps, mode: CheckpointMode, p: Position, resume: Option<Resume>,
                     maxSteps: nat, schedule: Schedule, n: nat)
    requires WellFormed(g) && FrontierOk(g, p.frontier) && CompletesAll(schedule)
    requires n <= Begun(Invocation(g, ops, mode, p, resume, maxSteps, schedule))
    ensures var trace := Invocation(g, ops, mode, p, resume, maxSteps, schedule);
            && AllReal(g, ([p] + trace.committed)[..n])
            && |Visited(g, ([p] + trace.committed)[..n])| <= maxSteps
            && var last := LastPosition(p, trace);
               (trace.ending.Failed? && trace.ending.error.MaxStepsExceeded?) <==>
                 last.frontier != [] && !WithinBudget(p.steps, maxSteps, last.steps + |last.frontier|)
  {
    hide WellFormed, CompletesAll, Run, Candidate, RealNodes, Steps, FirstBeyond;
    InvocationMeans(g, ops, mode, p, resume, maxSteps, schedule);
    var trace := Invocation(g, ops, mode, p, resume, maxSteps, schedule);
    RunAccounting(g, ops, mode, p, resume, StepLimit(p.steps, maxSteps), maxSteps, schedule);
    if n > 0 { PrefixFits(g, ops, mode, p, resume, maxSteps, schedule, n); }
  }

  lemma PrefixFits(g: CompiledGraph, ops: StateOps, mode: CheckpointMode, p: Position, resume: Option<Resume>,
                   maxSteps: nat, schedule: Schedule, n: nat)
    requires WellFormed(g) && FrontierOk(g, p.frontier) && CompletesAll(schedule)
    requires 0 < n <= Begun(Invocation(g, ops, mode, p, resume, maxSteps, schedule))
    ensures var all := [p] + Invocation(g, ops, mode, p, resume, maxSteps, schedule).committed;
            AllReal(g, all[..n]) && |Visited(g, all[..n])| <= maxSteps
  {
    hide WellFormed, CompletesAll, Run, Candidate, RealNodes, Steps, FirstBeyond;
    InvocationMeans(g, ops, mode, p, resume, maxSteps, schedule);
    var trace := Invocation(g, ops, mode, p, resume, maxSteps, schedule);
    var limit := StepLimit(p.steps, maxSteps);
    PrefixCounts(g, ops, mode, p, resume, limit, maxSteps, schedule, n);
    var from := ([p] + trace.committed)[n - 1];
    if n - 1 < |trace.committed| {
      assert StepCommits(g, ops, mode, p, resume, maxSteps, schedule, trace, n - 1);
    } else {
      assert from == LastPosition(p, trace);
    }
  }

  /** The first n boundaries account for every step counted up to the n-th and the
      nodes of its frontier. */
  lemma {:induction false} PrefixCounts(g: CompiledGraph, ops: StateOps, mode: CheckpointMode, p: Position,
                                        resume: Option<Resume>, limit: nat, maxSteps: nat, schedule: Schedule, n: nat)
    requires WellFormed(g) && FrontierOk(g, p.frontier) && CompletesAll(schedule)
    requires 0 < n <= |Run(g, ops, mode, p, resume, limit, maxSteps, schedule).committed| + 1
    ensures var all := [p] + Run(g, ops, mode, p, resume, limit, maxSteps, schedule).committed;
            && AllReal(g, all[..n])
            && p.steps + |Visited(g, all[..n])| == all[n - 1].steps + |all[n - 1].frontier|
    decreases n
  {
    hide WellFormed, CompletesAll, Run, Candidate, RealNodes, PathsOf;
    var trace := Run(g, ops, mode, p, resume, limit, maxSteps, schedule);
    var all := [p] + trace.committed;
    FrontierIsReal(g, p.frontier);
    if n == 1 {
      assert all[..1] == [p] && [p][1..] == [];
    } else {
      RunUnfolds(g, ops, mode, p, resume, limit, maxSteps, schedule);
      var next := trace.committed[0];
      PrefixCounts(g, ops, mode, next, None, limit, maxSteps, schedule, n - 1);
      var rest := [next] + trace.committed[1..];
      assert rest == trace.committed && all[..n][1..] == rest[..n - 1] && all[..n][0] == p;
    }
  }
}
