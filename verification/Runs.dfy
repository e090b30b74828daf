/** Whole runs: iterated super-steps under a step budget
    (crates/group-agent-core/src/runtime.rs:392-874). */
module Runs {
  import opened Base
  import opened Domain
  import opened Paths
  import opened Compiled
  import opened Runtime
  import opened Frontiers

  /** The largest step count the platform can represent (64-bit `usize`). */
  const USIZE_MAX: nat := 0xFFFF_FFFF_FFFF_FFFF

  /** `steps.saturating_add(max_steps)` */
  function StepLimit(steps: nat, maxSteps: nat): nat {
    if steps + maxSteps > USIZE_MAX then USIZE_MAX else steps + maxSteps
  }

  /** The completion order a host picks for a super-step of a given width. */
  type Schedule = (nat, nat) -> seq<nat>

  /** Every node completes in compiled order. */
  function Identity(width: nat): (order: seq<nat>)
    ensures IsCompletionOrder(order, width)
  {
    var order := seq(width, k => k);
    assert forall k :: 0 <= k < width ==> order[k] == k && k in order;
    order
  }

  ghost predicate CompletesAll(schedule: Schedule) {
    forall superstep: nat, width: nat :: IsCompletionOrder(schedule(superstep, width), width)
  }

  datatype Ending =
    | Finished
    | Interrupted(payload: Payload)
    | Failed(error: RunError)
    | NeverSettles
    | Panicked

  /** The committed boundaries of a run, oldest first, and how it ended. */
  datatype RunTrace = RunTrace(committed: seq<Position>, ending: Ending)

  function Remaining(limit: nat, steps: nat): nat { if limit < steps then 0 else limit - steps }

  function BudgetError(g: CompiledGraph, p: Position, limit: nat, maxSteps: nat): RunError
    requires RealNodes(g, p.frontier) && |p.frontier| > Remaining(limit, p.steps)
  {
    var blocked := Remaining(limit, p.steps);
    MaxStepsExceeded(maxSteps, g.items[p.frontier[blocked]].path, p.steps + blocked + 1)
  }

  /** A run from a committed boundary. A frontier larger than what is left of the
      budget is not started. */
  function Run(g: CompiledGraph, ops: StateOps, mode: CheckpointMode, p: Position, resume: Option<Resume>,
               limit: nat, maxSteps: nat, schedule: Schedule): RunTrace
    requires WellFormed(g) && FrontierOk(g, p.frontier) && CompletesAll(schedule)
    decreases Remaining(limit, p.steps)
  {
    if p.frontier == [] then RunTrace([], Finished)
    else if |p.frontier| > Remaining(limit, p.steps) then RunTrace([], Failed(BudgetError(g, p, limit, maxSteps)))
    else
      var order := schedule(p.superstep, |p.frontier|);
      SuperstepKeepsFrontier(g, ops, mode, p, resume, order);
      match Superstep(g, ops, mode, p, resume, order)
      case StepFailed(error) => RunTrace([], Failed(error))
      case Suspended(payload) => RunTrace([], Interrupted(payload))
      case Spinning => RunTrace([], NeverSettles)
      case Panicking => RunTrace([], Panicked)
      case Advanced(next, _) =>
        ScheduleIndependence(g, ops, mode, p, resume, order, order);
        var rest := Run(g, ops, mode, next, None, limit, maxSteps, schedule);
        RunTrace([next] + rest.committed, rest.ending)
  }

  function LastPosition(p: Position, trace: RunTrace): Position {
    if trace.committed == [] then p else trace.committed[|trace.committed| - 1]
  }

  // ---- one step of a run ----

  lemma OrderOf(schedule: Schedule, p: Position) returns (order: seq<nat>)
    requires CompletesAll(schedule)
    ensures order == schedule(p.superstep, |p.frontier|) && IsCompletionOrder(order, |p.frontier|)
  {
    order := schedule(p.superstep, |p.frontier|);
  }

  lemma StepCounts(g: CompiledGraph, ops: StateOps, mode: CheckpointMode, p: Position, resume: Option<Resume>,
                   order: seq<nat>)
    requires RealNodes(g, p.frontier) && p.frontier != [] && IsCompletionOrder(order, |p.frontier|)
    ensures var outcome := Superstep(g, ops, mode, p, resume, order);
            outcome.Advanced? ==>
              outcome.next.steps == p.steps + |p.frontier| && outcome.next.superstep == p.superstep + 1
  {
    hide CommitFrontier, IsCompletionOrder, RouteAll, Settle;
  }

  lemma FrontierIsReal(g: CompiledGraph, frontier: seq<nat>)
    requires FrontierOk(g, frontier)
    ensures RealNodes(g, frontier)
    ensures |PathsOf(g, frontier)| == |frontier|
  {
  }

  /** The first commit of a run, and the run from there. */
  lemma RunUnfolds(g: CompiledGraph, ops: StateOps, mode: CheckpointMode, p: Position, resume: Option<Resume>,
                   limit: nat, maxSteps: nat, schedule: Schedule)
    requires WellFormed(g) && FrontierOk(g, p.frontier) && CompletesAll(schedule)
    requires Run(g, ops, mode, p, resume, limit, maxSteps, schedule).committed != []
    ensures var trace := Run(g, ops, mode, p, resume, limit, maxSteps, schedule);
            var next := trace.committed[0];
            && FrontierOk(g, next.frontier)
            && next.steps == p.steps + |p.frontier| && next.superstep == p.superstep + 1 && next.steps <= limit
            && Run(g, ops, mode, next, None, limit, maxSteps, schedule)
               == RunTrace(trace.committed[1..], trace.ending)
  {
    hide WellFormed, CompletesAll, Superstep, Candidate, RealNodes;
    var order := OrderOf(schedule, p);
    SuperstepKeepsFrontier(g, ops, mode, p, resume, order);
    StepCounts(g, ops, mode, p, resume, order);
  }

  lemma RunStopsAtOnce(g: CompiledGraph, ops: StateOps, mode: CheckpointMode, p: Position, resume: Option<Resume>,
                       limit: nat, maxSteps: nat, schedule: Schedule)
    requires WellFormed(g) && FrontierOk(g, p.frontier) && CompletesAll(schedule)
    requires Run(g, ops, mode, p, resume, limit, maxSteps, schedule).committed == []
    ensures Run(g, ops, mode, p, resume, limit, maxSteps, schedule).ending.Finished? <==> p.frontier == []
  {
    hide WellFormed, CompletesAll, Superstep, Candidate, RealNodes;
  }

  // ---- accounting ----

  predicate AllReal(g: CompiledGraph, positions: seq<Position>) {
    forall k :: 0 <= k < |positions| ==> RealNodes(g, positions[k].frontier)
  }

  /** The nodes the frontiers at these positions hold, in the order a run starts
      them. */
  function Visited(g: CompiledGraph, positions: seq<Position>): seq<NodePath>
    requires AllReal(g, positions)
  {
    if positions == [] then [] else PathsOf(g, positions[0].frontier) + Visited(g, positions[1..])
  }

  lemma {:induction false} VisitedMore(g: CompiledGraph, positions: seq<Position>, last: Position)
    requires AllReal(g, positions) && RealNodes(g, last.frontier)
    ensures AllReal(g, positions + [last])
    ensures Visited(g, positions + [last]) == Visited(g, positions) + PathsOf(g, last.frontier)
  {
    if positions == [] {
      assert [last][1..] == [];
    } else {
      VisitedMore(g, positions[1..], last);
      assert (positions + [last])[1..] == positions[1..] + [last];
    }
  }

  /** Every commit counts exactly the nodes it executed, one super-step each, and
      a run never executes more nodes than its budget. */
  lemma {:induction false} RunAccounting(g: CompiledGraph, ops: StateOps, mode: CheckpointMode, p: Position,
                                         resume: Option<Resume>, limit: nat, maxSteps: nat, schedule: Schedule)
    requires WellFormed(g) && FrontierOk(g, p.frontier) && CompletesAll(schedule)
    ensures AllReal(g, [p] + Run(g, ops, mode, p, resume, limit, maxSteps, schedule).committed)
    ensures var trace := Run(g, ops, mode, p, resume, limit, maxSteps, schedule);
            var last := LastPosition(p, trace);
            && last.superstep == p.superstep + |trace.committed|
            && FrontierOk(g, last.frontier)
            && (trace.ending.Finished? <==> last.frontier == [])
            && last.steps + |last.frontier| == p.steps + |Visited(g, [p] + trace.committed)|
            && (trace.committed != [] ==> last.steps <= limit)
    decreases |Run(g, ops, mode, p, resume, limit, maxSteps, schedule).committed|
  {
    hide WellFormed, CompletesAll, Run, Candidate, RealNodes, PathsOf;
    var trace := Run(g, ops, mode, p, resume, limit, maxSteps, schedule);
    assert ([p] + trace.committed)[1..] == trace.committed;
    FrontierIsReal(g, p.frontier);
    if trace.committed == [] {
      RunStopsAtOnce(g, ops, mode, p, resume, limit, maxSteps, schedule);
    } else {
      RunUnfolds(g, ops, mode, p, resume, limit, maxSteps, schedule);
      RunAccounting(g, ops, mode, trace.committed[0], None, limit, maxSteps, schedule);
      assert [trace.committed[0]] + trace.committed[1..] == trace.committed;
    }
  }

  // ---- schedules ----

  /** When every super-step of a run commits, the schedule it ran under does not
      matter: same boundaries, same ending. */
  lemma {:induction false} RunIgnoresSchedule(g: CompiledGraph, ops: StateOps, mode: CheckpointMode, p: Position,
                                              resume: Option<Resume>, limit: nat, maxSteps: nat, a: Schedule,
                                              b: Schedule)
    requires WellFormed(g) && FrontierOk(g, p.frontier) && CompletesAll(a) && CompletesAll(b)
    ensures var ra := Run(g, ops, mode, p, resume, limit, maxSteps, a);
            var rb := Run(g, ops, mode, p, resume, limit, maxSteps, b);
            ra.committed == rb.committed && (ra == rb || (ra.ending.Failed? && rb.ending.Failed?))
    decreases Remaining(limit, p.steps)
  {
    hide WellFormed, CompletesAll, Superstep, Candidate;
    if p.frontier != [] && |p.frontier| <= Remaining(limit, p.steps) {
      var order := OrderOf(a, p);
      var order' := OrderOf(b, p);
      ScheduleIndependence(g, ops, mode, p, resume, order, order');
      SuperstepKeepsFrontier(g, ops, mode, p, resume, order);
      match Superstep(g, ops, mode, p, resume, order)
      case Advanced(next, _) =>
        RunIgnoresSchedule(g, ops, mode, next, None, limit, maxSteps, a, b);
      case _ =>
    }
  }

  // ---- runs that cannot panic ----

  /** From a harmless frontier no run ever meets a mount beside another item: the
      debug assertion holds and `node_at` never panics. */
  lemma {:induction false} HarmlessRunsNeverPanic(g: CompiledGraph, ops: StateOps, mode: CheckpointMode, p: Position,
                                                  resume: Option<Resume>, limit: nat, maxSteps: nat,
                                                  schedule: Schedule)
    requires WellFormed(g) && FrontierOk(g, p.frontier) && Harmless(g, p.frontier) && CompletesAll(schedule)
    ensures var trace := Run(g, ops, mode, p, resume, limit, maxSteps, schedule);
            !trace.ending.Panicked? && Harmless(g, LastPosition(p, trace).frontier)
    decreases Remaining(limit, p.steps)
  {
    hide WellFormed, CompletesAll, Superstep, Candidate, Harmless, RealNodes;
    if p.frontier != [] && |p.frontier| <= Remaining(limit, p.steps) {
      var order := OrderOf(schedule, p);
      SuperstepKeepsFrontier(g, ops, mode, p, resume, order);
      SuperstepStaysHarmless(g, ops, mode, p, resume, order);
      match Superstep(g, ops, mode, p, resume, order)
      case Advanced(next, _) =>
        StepCounts(g, ops, mode, p, resume, order);
        HarmlessRunsNeverPanic(g, ops, mode, next, None, limit, maxSteps, schedule);
      case _ =>
    }
  }
}
