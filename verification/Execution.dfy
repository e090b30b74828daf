/** The super-step loop as it runs: the frontier vector rewritten in place,
    completions filling update slots, control checks, saves
    (crates/group-agent-core/src/runtime.rs:369-974). */
module Execution {
  import opened Base
  import opened Domain
  import opened Paths
  import opened Transitions
  import opened Compiled
  import opened Runtime
  import opened Frontiers
  import opened Runs
  import opened Resuming
  import opened RunMeaning
  import opened Records
  import opened CheckpointStore
  import opened Saving

  // ---- normalization ----

  /** Enters and leaves scopes until real nodes are left. The move counter stands
      for a loop the program does not bound: `Unsettled` is an endless loop. */
  method NormalizeFrontier(g: CompiledGraph, start: seq<nat>, state: State) returns (r: Normalized)
    requires WellFormed(g) && Candidate(g, start)
    ensures r == Settle(g, start, state)
  {
    hide WellFormed, StructuralMove, Candidate, Crossing, Normalize, NextFrontier, IsStructural, RouteTargets;
    var frontier := start;
    var boundaries := [];
    var fuel: nat := |g.items| + 1;
    CrossingJoins([], [], Settle(g, start, state));
    while true
      invariant Candidate(g, frontier)
      invariant Settle(g, start, state) == Crossing(boundaries, Normalize(g, frontier, state, fuel))
      decreases fuel
    {
      CandidateIndices(g, frontier);
      NormalizeRests(g, frontier, state, fuel);
      CrossingIs(g, frontier, boundaries);
      if |frontier| != 1 { return Settled(frontier, boundaries); }
      var item := g.items[frontier[0]];
      if item.Node? { return Settled(frontier, boundaries); }
      if fuel == 0 { return Unsettled; }
      NormalizeStep(g, frontier, state, fuel - 1);
      MoveIsRoute(g, item, state);
      var targets, decision :=
        ResolveInto(item.transition, state, ParentOf(StructuralPath(item)), [], (index: nat) => PathOrEmpty(g, index));
      if decision.Err? { return Misrouted(StructuralPath(item), decision.error); }
      MoveKeepsCandidate(g, frontier[0], state);
      CrossingJoins(boundaries, [BoundaryOf(item)],
                    Normalize(g, StructuralMove(g, item, state).value, state, fuel - 1));
      assert [] + RouteTargets(item.transition, state).value == RouteTargets(item.transition, state).value;
      if item.ExitSubgraph? { targets := LeaveScope(g, ParentOf(item.mountPath), targets); }
      frontier := targets;
      boundaries := boundaries + [BoundaryOf(item)];
      fuel := fuel - 1;
    }
  }

  /** Sorts, deduplicates and leaves a scope with nothing left to run. */
  method LeaveScope(g: CompiledGraph, scope: GraphPath, targets: seq<nat>) returns (frontier: seq<nat>)
    ensures frontier == NextFrontier(g, scope, targets)
  {
    frontier := SortDedup(targets);
    if frontier == [] && scope in g.scopeExits { frontier := [g.scopeExits[scope]]; }
  }

  lemma CrossingIs(g: CompiledGraph, frontier: seq<nat>, boundaries: seq<SubgraphBoundary>)
    ensures Crossing(boundaries, Settled(frontier, [])) == Settled(frontier, boundaries)
    ensures Crossing(boundaries, Unsettled) == Unsettled
    ensures forall node, error :: Crossing(boundaries, Misrouted(node, error)) == Misrouted(node, error)
    ensures IsStructural(g, frontier) <==> |frontier| == 1 && frontier[0] < |g.items| && !g.items[frontier[0]].Node?
  {
    assert boundaries + [] == boundaries;
  }

  function PathOrEmpty(g: CompiledGraph, index: nat): NodePath {
    if index < |g.items| then PathAt(g, index) else []
  }

  lemma MoveIsRoute(g: CompiledGraph, item: CompiledItem, state: State)
    requires !item.Node?
    ensures match RouteTargets(item.transition, state)
            case Err(error) => StructuralMove(g, item, state) == Err(error)
            case Ok(targets) =>
              StructuralMove(g, item, state)
              == Ok(if item.EnterSubgraph? then targets else NextFrontier(g, ParentOf(item.mountPath), targets))
  {
  }

  // ---- routing ----

  /** Appends every source's targets in frontier order. */
  method RouteFrontier(g: CompiledGraph, frontier: seq<nat>, state: State)
    returns (targets: seq<nat>, fault: Option<RouteFault>)
    requires InGraph(g, frontier)
    ensures RouteAll(g, frontier, state) == if fault.Some? then Err(fault.value) else Ok(targets)
  {
    targets := [];
    for offset := 0 to |frontier|
      invariant RouteAll(g, frontier[..offset], state) == Ok(targets)
    {
      assert frontier[..offset + 1][..offset] == frontier[..offset];
      var item := g.items[frontier[offset]];
      RouteStops(g, frontier, state, offset + 1);
      var decision;
      targets, decision :=
        ResolveInto(item.transition, state, Home(item), targets, (index: nat) => PathOrEmpty(g, index));
      if decision.Err? { return targets, Some(RouteFault(offset, decision.error)); }
    }
    assert frontier[..|frontier|] == frontier;
    fault := None;
  }

  lemma {:induction false} RouteStops(g: CompiledGraph, frontier: seq<nat>, state: State, n: nat)
    requires InGraph(g, frontier) && n <= |frontier|
    ensures RouteAll(g, frontier[..n], state).Err? ==>
              RouteAll(g, frontier, state) == RouteAll(g, frontier[..n], state)
    decreases |frontier|
  {
    if n < |frontier| {
      assert frontier[..|frontier| - 1][..n] == frontier[..n];
      RouteStops(g, frontier[..|frontier| - 1], state, n);
    } else {
      assert frontier[..n] == frontier;
    }
  }

  // ---- the nodes of one super-step ----

  /** Completions arrive in any order and each fills the slot of its own offset. */
  method RunParallel(g: CompiledGraph, mode: CheckpointMode, p: Position, resume: Option<Resume>, order: seq<nat>)
    returns (batch: seq<NodeUpdate>, fault: Option<RunError>)
    requires RealNodes(g, p.frontier) && IsCompletionOrder(order, |p.frontier|)
    ensures fault == ParallelFault(g, mode, p, resume, order)
    ensures fault.None? ==> AllProduced(g, p, resume) && batch == Batch(g, p, resume)
  {
    hide NodeResult;
    var width := |p.frontier|;
    var updateSlots := new Option<Update>[width](_ => None);
    assert order[0..] == order;
    for i := 0 to width
      invariant ParallelFault(g, mode, p, resume, order) == ParallelFault(g, mode, p, resume, order[i..])
      invariant forall j :: 0 <= j < i ==> updateSlots[order[j]].Some?
      invariant forall k :: 0 <= k < width && updateSlots[k].Some? ==>
                  NodeResult(g, p, resume, k) == Ok(Produced(updateSlots[k].value))
    {
      var offset := order[i];
      assert order[i..][1..] == order[i + 1..];
      var result := NodeResult(g, p, resume, offset);
      var node, step := g.items[p.frontier[offset]].path, p.steps + offset + 1;
      if result.Err? { return [], Some(NodeFailed(node, step, result.error)); }
      match result.value
      case Interrupt(_) =>
        return [], InterruptError(mode, node, step, true);
      case Produced(update) =>
        updateSlots[offset] := Some(update);
    }
    assert order[width..] == [];
    fault := None;
    forall k | 0 <= k < width ensures updateSlots[k].Some? {
      assert k in order;
      var j :| 0 <= j < width && order[j] == k;
    }
    batch := [];
    for k := 0 to width
      invariant |batch| == k
      invariant forall j :: 0 <= j < k ==>
                  batch[j] == NodeUpdate(g.items[p.frontier[j]].path, NodeResult(g, p, resume, j).value.update)
    {
      batch := batch + [NodeUpdate(g.items[p.frontier[k]].path, updateSlots[k].value)];
    }
  }

  method RunFrontier(g: CompiledGraph, ops: StateOps, mode: CheckpointMode, p: Position, resume: Option<Resume>,
                     order: seq<nat>) returns (commit: Commit)
    requires RealNodes(g, p.frontier) && p.frontier != [] && IsCompletionOrder(order, |p.frontier|)
    ensures commit == CommitFrontier(g, ops, mode, p, resume, order)
  {
    hide NodeResult, ParallelFault, AllProduced;
    if |p.frontier| == 1 {
      var node, step := g.items[p.frontier[0]].path, p.steps + 1;
      var result := NodeResult(g, p, resume, 0);
      if result.Err? { return Rejected(NodeFailed(node, step, result.error)); }
      match result.value
      case Interrupt(payload) =>
        var error := InterruptError(mode, node, step, false);
        if error.Some? { return Rejected(error.value); }
        return Held(payload);
      case Produced(update) =>
        var applied := ops.apply(p.state, update);
        if applied.Err? { return Rejected(StateUpdateFailed(node, step, applied.error)); }
        return Committed(applied.value);
    } else {
      var batch, fault := RunParallel(g, mode, p, resume, order);
      if fault.Some? { return Rejected(fault.value); }
      var applied := ops.applyBatch(p.state, batch);
      if applied.Err? {
        return Rejected(StateBatchUpdateFailed(PathsOf(g, p.frontier), p.steps + 1, applied.error));
      }
      return Committed(applied.value);
    }
  }

  // ---- whole executions ----

  /** What the host decides: completion orders, the ids it hands out, and at which
      control check the run is cancelled or out of time. */
  datatype Environment = Environment(
    schedule: Schedule,
    abort: nat -> bool,
    ids: nat -> CheckpointId,
    interruptIds: nat -> InterruptId)

  datatype Outcome =
    | RunCompleted(state: State, steps: nat, visited: seq<NodePath>)
    | RunInterrupted(at: Position, payload: Payload, saved: CheckpointId)
    | RunFailed(error: RunError)
    | RunUnsaved(saveError: SaveError)
    | RunAborted
    | RunSpins
    | RunPanicked

  /** An invocation saves an empty graph once; a resumed run does not. */
  function Opening(p: Position, saveEmpty: bool): seq<Position> {
    if saveEmpty && p.frontier == [] then [p] else []
  }

  function SuspensionAt(g: CompiledGraph, env: Environment, saves: nat, p: Position, payload: Payload): Suspension
    requires RealNodes(g, p.frontier) && p.frontier != []
  {
    Suspension(env.interruptIds(saves), g.items[p.frontier[0]].path, payload)
  }

  /** One execution: the graph and host it runs on, and where and how it starts. */
  datatype Job = Job(g: CompiledGraph, ops: StateOps, codec: Codec, dest: Destination, env: Environment,
                     start: Progress, p: Position, resume: Option<Resume>, maxSteps: nat, saveEmpty: bool)

  ghost predicate JobOk(job: Job) {
    WellFormed(job.g) && FrontierOk(job.g, job.p.frontier) && CompletesAll(job.env.schedule)
  }

  /** The run this execution is meant to be. */
  ghost function TraceOf(job: Job): RunTrace
    requires JobOk(job)
  {
    Invocation(job.g, job.ops, job.dest.mode, job.p, job.resume, job.maxSteps, job.env.schedule)
  }

  ghost predicate TraceOk(g: CompiledGraph, p: Position, trace: RunTrace) {
    && AllReal(g, [p] + trace.committed)
    && (trace.ending.Interrupted? ==> LastPosition(p, trace).frontier != [])
  }

  lemma TraceIsOk(job: Job)
    requires JobOk(job)
    ensures TraceOk(job.g, job.p, TraceOf(job))
  {
    hide WellFormed, CompletesAll, Run, Candidate;
    var trace, limit := TraceOf(job), StepLimit(job.p.steps, job.maxSteps);
    RunAccounting(job.g, job.ops, job.dest.mode, job.p, job.resume, limit, job.maxSteps, job.env.schedule);
  }

  lemma SavedAreReal(job: Job, n: nat)
    requires JobOk(job) && n <= |TraceOf(job).committed|
    ensures AllReal(job.g, Opening(job.p, job.saveEmpty) + TraceOf(job).committed[..n])
    ensures AllReal(job.g, ([job.p] + TraceOf(job).committed)[..n])
  {
    hide JobOk, TraceOf, RealNodes;
    TraceIsOk(job);
    var all := [job.p] + TraceOf(job).committed;
    assert forall k :: 0 <= k < n ==> all[k + 1] == TraceOf(job).committed[k];
    assert all[0] == job.p;
  }

  /** The intended run, as `IsRunOf` describes runs. */
  ghost predicate RunsAsDescribed(job: Job)
    requires JobOk(job)
  {
    IsRunOf(job.g, job.ops, job.dest.mode, job.p, job.resume, job.maxSteps, job.env.schedule, TraceOf(job))
  }

  lemma TraceMeans(job: Job)
    requires JobOk(job)
    ensures RunsAsDescribed(job)
  {
    hide WellFormed, CompletesAll, Run, Candidate, IsRunOf;
    InvocationMeans(job.g, job.ops, job.dest.mode, job.p, job.resume, job.maxSteps, job.env.schedule);
  }

  /** The saves of the first n boundaries of the run. */
  ghost function SavedBy(job: Job, n: nat): SaveRun
    requires JobOk(job) && n <= |TraceOf(job).committed|
  {
    SavedAreReal(job, n);
    SaveAll(job.g, job.codec, job.dest, job.env.ids, job.start,
            Opening(job.p, job.saveEmpty) + TraceOf(job).committed[..n])
  }

  /** The nodes started by the first n super-steps. */
  ghost function VisitedBy(job: Job, n: nat): seq<NodePath>
    requires JobOk(job) && n <= |TraceOf(job).committed|
  {
    SavedAreReal(job, n);
    Visited(job.g, ([job.p] + TraceOf(job).committed)[..n])
  }

  lemma LastIsReal(job: Job)
    requires JobOk(job)
    ensures RealNodes(job.g, LastPosition(job.p, TraceOf(job)).frontier)
    ensures TraceOf(job).ending.Interrupted? ==> LastPosition(job.p, TraceOf(job)).frontier != []
  {
    hide JobOk, TraceOf, RealNodes;
    TraceIsOk(job);
    var all := [job.p] + TraceOf(job).committed;
    assert LastPosition(job.p, TraceOf(job)) == all[|all| - 1];
  }

  ghost function InterruptSave(job: Job, at: Progress): SaveAttempt
    requires JobOk(job) && TraceOf(job).ending.Interrupted?
  {
    LastIsReal(job);
    var last := LastPosition(job.p, TraceOf(job));
    SaveBoundary(job.g, job.codec, job.dest, at.store, at.parent, job.env.ids(at.saves), last,
                 Some(SuspensionAt(job.g, job.env, at.saves, last, TraceOf(job).ending.payload)))
  }

  /** The outcome and the store are those of the intended run, cut off after n of
      its boundaries: nothing else is ever written, and only a cancelled or
      unsaved execution stops early. */
  ghost predicate Explains(job: Job, n: nat, outcome: Outcome, after: Store)
    requires JobOk(job)
  {
    n <= |TraceOf(job).committed| &&
    var trace, run := TraceOf(job), SavedBy(job, n);
    var whole := n == |trace.committed| && run.failure.None?;
    var last := LastPosition(job.p, trace);
    match outcome
    case RunCompleted(state, steps, visited) =>
      && whole && trace.ending.Finished? && after == run.progress.store
      && state == last.state && steps == last.steps && visited == VisitedBy(job, n)
    case RunInterrupted(at, payload, saved) =>
      && whole && trace.ending == Interrupted(payload) && at == last
      && InterruptSave(job, run.progress) == SaveAttempt(after, Ok(saved))
    case RunFailed(error) => whole && trace.ending == Failed(error) && after == run.progress.store
    case RunSpins => whole && trace.ending.NeverSettles? && after == run.progress.store
    case RunPanicked => whole && trace.ending.Panicked? && after == run.progress.store
    case RunUnsaved(error) =>
      || (run.failure == Some(error) && after == run.progress.store)
      || (whole && trace.ending.Interrupted? && InterruptSave(job, run.progress) == SaveAttempt(after, Err(error)))
    case RunAborted =>
      && (exists tick :: job.env.abort(tick))
      && ((n == 0 && after == job.start.store)
          || (run.failure.None? && after == run.progress.store)
          || (whole && trace.ending.Interrupted? && after == InterruptSave(job, run.progress).store))
  }

  // ---- the loop ----

  /** What the debug assertion of normalization checks of a settled frontier. */
  method AllNodes(g: CompiledGraph, frontier: seq<nat>) returns (allReal: bool)
    requires InGraph(g, frontier)
    ensures allReal <==> RealNodes(g, frontier)
  {
    for k := 0 to |frontier|
      invariant forall j :: 0 <= j < k ==> g.items[frontier[j]].Node?
    {
      if !g.items[frontier[k]].Node? { return false; }
    }
    allReal := true;
  }

  /** Runs the frontier, commits, routes, leaves or enters scopes. */
  method TakeSuperstep(g: CompiledGraph, ops: StateOps, mode: CheckpointMode, p: Position, resume: Option<Resume>,
                       order: seq<nat>) returns (outcome: StepOutcome)
    requires WellFormed(g) && FrontierOk(g, p.frontier) && p.frontier != []
    requires IsCompletionOrder(order, |p.frontier|)
    ensures outcome == Superstep(g, ops, mode, p, resume, order)
  {
    hide WellFormed, Candidate, CommitFrontier, RouteAll, Settle, IsCompletionOrder, NextFrontier;
    var commit := RunFrontier(g, ops, mode, p, resume, order);
    match commit
    case Rejected(error) => return StepFailed(error);
    case Held(payload) => return Suspended(payload);
    case Committed(state) =>
      var steps := p.steps + |p.frontier|;
      var scope := g.items[p.frontier[0]].graphPath;
      RouteAllOffsets(g, p.frontier, state);
      var targets, fault := RouteFrontier(g, p.frontier, state);
      if fault.Some? {
        var source := g.items[p.frontier[fault.value.offset]].path;
        return StepFailed(RouteFailed(source, p.steps + fault.value.offset + 1, fault.value.error));
      }
      RoutedIsCandidate(g, p.frontier, state);
      targets := LeaveScope(g, scope, targets);
      var settled := NormalizeFrontier(g, targets, state);
      match settled
      case Misrouted(node, error) => return StepFailed(RouteFailed(node, steps, error));
      case Unsettled => return Spinning;
      case Settled(frontier, boundaries) =>
        SettleKeepsCandidate(g, targets, state);
        CandidateIndices(g, frontier);
        var allReal := AllNodes(g, frontier);
        if !allReal { return Panicking; }
        return Advanced(Position(state, steps, p.superstep + 1, frontier), boundaries);
  }

  // ---- where an execution stands ----

  /** n boundaries of the run are behind and saved, and the rest starts at cur. */
  ghost predicate Underway(job: Job, n: nat, cur: Position, at: Progress)
    requires JobOk(job)
  {
    var trace := TraceOf(job);
    && n <= |trace.committed| && cur == BoundaryAt(job.p, trace, n) && FrontierOk(job.g, cur.frontier)
    && Run(job.g, job.ops, job.dest.mode, cur, ResumeAt(job.resume, n), StepLimit(job.p.steps, job.maxSteps),
           job.maxSteps, job.env.schedule)
       == RunTrace(trace.committed[n..], trace.ending)
    && SavedBy(job, n) == SaveRun(at, None)
  }

  ghost function StepAt(job: Job, n: nat, cur: Position): StepOutcome
    requires JobOk(job) && FrontierOk(job.g, cur.frontier) && cur.frontier != []
  {
    var order := job.env.schedule(cur.superstep, |cur.frontier|);
    Superstep(job.g, job.ops, job.dest.mode, cur, ResumeAt(job.resume, n), order)
  }

  ghost predicate Affordable(job: Job, cur: Position) {
    cur.frontier != [] && |cur.frontier| <= Remaining(StepLimit(job.p.steps, job.maxSteps), cur.steps)
  }

  lemma UnderwayFrontier(job: Job, n: nat, cur: Position, at: Progress)
    requires JobOk(job) && Underway(job, n, cur, at)
    ensures FrontierOk(job.g, cur.frontier) && RealNodes(job.g, cur.frontier)
  {
  }

  lemma Begin(job: Job)
    requires JobOk(job)
    ensures RealNodes(job.g, job.p.frontier)
    ensures VisitedBy(job, 0) == []
    ensures var begun := if job.saveEmpty && job.p.frontier == []
                          then SaveNext(job.g, job.codec, job.dest, job.env.ids, job.start, job.p)
                          else SaveRun(job.start, None);
            && SavedBy(job, 0) == begun
            && (begun.failure.None? ==> Underway(job, 0, job.p, begun.progress))
            && (begun.failure.Some? ==> Explains(job, 0, RunUnsaved(begun.failure.value), begun.progress.store))
  {
    hide WellFormed, CompletesAll, Run, Candidate, SaveNext;
    var trace := TraceOf(job);
    assert trace.committed[0..] == trace.committed;
    assert Opening(job.p, job.saveEmpty) + trace.committed[..0] == Opening(job.p, job.saveEmpty);
    assert job.p.frontier == [] ==> SaveAll(job.g, job.codec, job.dest, job.env.ids, job.start, [job.p])
                                    == SaveNext(job.g, job.codec, job.dest, job.env.ids, job.start, job.p);
  }

  lemma MoreSaved(job: Job, n: nat)
    requires JobOk(job) && n < |TraceOf(job).committed|
    ensures RealNodes(job.g, TraceOf(job).committed[n].frontier)
    ensures RealNodes(job.g, BoundaryAt(job.p, TraceOf(job), n).frontier)
    ensures SavedBy(job, n).failure.None? ==>
              SavedBy(job, n + 1) == SaveNext(job.g, job.codec, job.dest, job.env.ids, SavedBy(job, n).progress,
                                              TraceOf(job).committed[n])
    ensures VisitedBy(job, n + 1)
            == VisitedBy(job, n) + PathsOf(job.g, BoundaryAt(job.p, TraceOf(job), n).frontier)
  {
    hide WellFormed, CompletesAll, Run, Candidate, SaveNext;
    TraceIsOk(job);
    var trace := TraceOf(job);
    var all := [job.p] + trace.committed;
    assert all[n + 1] == trace.committed[n] && all[n] == BoundaryAt(job.p, trace, n);
    var positions := Opening(job.p, job.saveEmpty) + trace.committed[..n + 1];
    assert positions[..|positions| - 1] == Opening(job.p, job.saveEmpty) + trace.committed[..n];
    assert all[..n + 1] == all[..n] + [all[n]];
    VisitedMore(job.g, all[..n], all[n]);
  }

  lemma Moves(job: Job, n: nat, cur: Position, at: Progress)
    requires JobOk(job) && Underway(job, n, cur, at) && Affordable(job, cur)
    ensures var outcome, trace := StepAt(job, n, cur), TraceOf(job);
            if outcome.Advanced? then
              && n < |trace.committed| && trace.committed[n] == outcome.next
              && BoundaryAt(job.p, trace, n + 1) == outcome.next
              && FrontierOk(job.g, outcome.next.frontier)
              && outcome.next.steps == cur.steps + |cur.frontier|
              && Run(job.g, job.ops, job.dest.mode, outcome.next, None, StepLimit(job.p.steps, job.maxSteps),
                     job.maxSteps, job.env.schedule)
                 == RunTrace(trace.committed[n + 1..], trace.ending)
            else
              && n == |trace.committed| && cur == LastPosition(job.p, trace)
              && trace.ending == (if outcome.StepFailed? then Failed(outcome.error)
                                  else if outcome.Suspended? then Interrupted(outcome.payload)
                                  else if outcome.Spinning? then NeverSettles else Panicked)
  {
    hide WellFormed, CompletesAll, Superstep, Candidate, SavedBy;
    var order := OrderOf(job.env.schedule, cur);
    var trace := TraceOf(job);
    var outcome := StepAt(job, n, cur);
    SuperstepKeepsFrontier(job.g, job.ops, job.dest.mode, cur, ResumeAt(job.resume, n), order);
    StepCounts(job.g, job.ops, job.dest.mode, cur, ResumeAt(job.resume, n), order);
    if outcome.Advanced? {
      var rest := Run(job.g, job.ops, job.dest.mode, outcome.next, None, StepLimit(job.p.steps, job.maxSteps),
                      job.maxSteps, job.env.schedule);
      assert trace.committed[n..] == [outcome.next] + rest.committed;
      assert trace.committed[n..][0] == trace.committed[n];
      assert trace.committed[n + 1..] == trace.committed[n..][1..];
    }
  }

  /** One committed super-step: its save decides whether the run goes on. */
  lemma Advances(job: Job, n: nat, cur: Position, at: Progress)
    requires JobOk(job) && Underway(job, n, cur, at) && Affordable(job, cur) && StepAt(job, n, cur).Advanced?
    ensures var next := StepAt(job, n, cur).next;
            && RealNodes(job.g, next.frontier) && RealNodes(job.g, cur.frontier)
            && next.steps == cur.steps + |cur.frontier|
            && n < |TraceOf(job).committed|
            && VisitedBy(job, n + 1) == VisitedBy(job, n) + PathsOf(job.g, cur.frontier)
            && var saved := SaveNext(job.g, job.codec, job.dest, job.env.ids, at, next);
               if saved.failure.None? then Underway(job, n + 1, next, saved.progress)
               else Explains(job, n + 1, RunUnsaved(saved.failure.value), saved.progress.store)
  {
    hide WellFormed, CompletesAll, Run, Candidate, SaveNext, Superstep, SavedBy, VisitedBy, InterruptSave;
    Moves(job, n, cur, at);
    MoreSaved(job, n);
  }

  /** A super-step that does not commit ends the run, and so does a suspended one
      once it is saved. */
  lemma Stops(job: Job, n: nat, cur: Position, at: Progress)
    requires JobOk(job) && Underway(job, n, cur, at) && Affordable(job, cur)
    ensures RealNodes(job.g, cur.frontier)
    ensures StepAt(job, n, cur).StepFailed? ==> Explains(job, n, RunFailed(StepAt(job, n, cur).error), at.store)
    ensures StepAt(job, n, cur).Spinning? ==> Explains(job, n, RunSpins, at.store)
    ensures StepAt(job, n, cur).Panicking? ==> Explains(job, n, RunPanicked, at.store)
    ensures StepAt(job, n, cur).Suspended? ==>
              var payload := StepAt(job, n, cur).payload;
              var attempt := SaveBoundary(job.g, job.codec, job.dest, at.store, at.parent, job.env.ids(at.saves), cur,
                                          Some(SuspensionAt(job.g, job.env, at.saves, cur, payload)));
              && (attempt.reply.Err? ==> Explains(job, n, RunUnsaved(attempt.reply.error), attempt.store))
              && (attempt.reply.Ok? ==>
                    Explains(job, n, RunInterrupted(cur, payload, attempt.reply.value), attempt.store))
              && ((exists tick :: job.env.abort(tick)) ==> Explains(job, n, RunAborted, attempt.store))
  {
    hide WellFormed, CompletesAll, Run, Candidate, SaveBoundary, Superstep, SavedBy, VisitedBy;
    Moves(job, n, cur, at);
  }

  lemma Ends(job: Job, n: nat, cur: Position, at: Progress)
    requires JobOk(job) && Underway(job, n, cur, at) && !Affordable(job, cur)
    ensures RealNodes(job.g, cur.frontier)
    ensures cur.frontier == [] ==> Explains(job, n, RunCompleted(cur.state, cur.steps, VisitedBy(job, n)), at.store)
    ensures cur.frontier != [] ==>
              Explains(job, n,
                       RunFailed(BudgetError(job.g, cur, StepLimit(job.p.steps, job.maxSteps), job.maxSteps)), at.store)
  {
    hide WellFormed, CompletesAll, Superstep, Candidate, SavedBy, VisitedBy, InterruptSave;
    assert Run(job.g, job.ops, job.dest.mode, cur, ResumeAt(job.resume, n), StepLimit(job.p.steps, job.maxSteps),
               job.maxSteps, job.env.schedule).committed == [];
  }

  /** A completed execution has counted every node it started. */
  lemma CompletedCountsItsNodes(job: Job, n: nat, outcome: Outcome, after: Store)
    requires JobOk(job) && Explains(job, n, outcome, after) && outcome.RunCompleted?
    ensures |outcome.visited| == outcome.steps - job.p.steps
  {
    hide WellFormed, CompletesAll, Run, Candidate, SavedBy, InterruptSave;
    var trace, limit := TraceOf(job), StepLimit(job.p.steps, job.maxSteps);
    RunAccounting(job.g, job.ops, job.dest.mode, job.p, job.resume, limit, job.maxSteps, job.env.schedule);
    TraceIsOk(job);
    var all := [job.p] + trace.committed;
    assert all == all[..n] + [LastPosition(job.p, trace)];
    VisitedMore(job.g, all[..n], LastPosition(job.p, trace));
  }

  /** No execution has committed more nodes than its budget; one that ran to its
      end was out of budget exactly when what it had to run next was too much, and
      then names the first node that did not fit. */
  lemma ExecutionKeepsBudget(job: Job, n: nat, outcome: Outcome, after: Store)
    requires JobOk(job) && Explains(job, n, outcome, after)
    ensures |VisitedBy(job, n)| <= job.maxSteps
    ensures outcome.RunCompleted? ==> |outcome.visited| <= job.maxSteps
    ensures var last := LastPosition(job.p, TraceOf(job));
            !outcome.RunAborted? && !outcome.RunUnsaved? ==>
              (last.frontier != [] && !WithinBudget(job.p.steps, job.maxSteps, last.steps + |last.frontier|) <==>
                 outcome.RunFailed? && outcome.error.MaxStepsExceeded?)
    ensures var last := LastPosition(job.p, TraceOf(job));
            outcome.RunFailed? && outcome.error.MaxStepsExceeded? ==>
              NamesFirstBeyond(job.g, job.p.steps, job.maxSteps, last, outcome.error)
  {
    hide WellFormed, CompletesAll, Run, Candidate, SavedBy, InterruptSave, NamesFirstBeyond, StepCommits;
    BudgetIsKept(job.g, job.ops, job.dest.mode, job.p, job.resume, job.maxSteps, job.env.schedule, n);
    TraceMeans(job);
  }

  /** An interrupted execution has stored the suspended node, under the identifier
      the host handed out, with its payload, after the last boundary saved. */
  lemma InterruptIsStored(job: Job, n: nat, outcome: Outcome, after: Store)
    requires JobOk(job) && Explains(job, n, outcome, after) && outcome.RunInterrupted?
    requires StoreOk(SavedBy(job, n).progress.store)
    ensures outcome.at == LastPosition(job.p, TraceOf(job)) && outcome.at.frontier != []
    ensures outcome.saved in after.byId && outcome.at.frontier[0] < |job.g.items|
    ensures var before := SavedBy(job, n).progress;
            var node := PathAt(job.g, outcome.at.frontier[0]);
            && outcome.saved == job.env.ids(before.saves)
            && RecordSays(job.g, job.codec, job.dest, before.parent, outcome.saved, outcome.at,
                          Some(Suspension(job.env.interruptIds(before.saves), node, outcome.payload)),
                          after.byId[outcome.saved])
  {
    hide WellFormed, CompletesAll, Run, Candidate, SavedBy, StoreOk, RecordSays, SaveBoundary, TraceOf, VisitedBy;
    LastIsReal(job);
    var before, last := SavedBy(job, n).progress, LastPosition(job.p, TraceOf(job));
    var suspension := SuspensionAt(job.g, job.env, before.saves, last, outcome.payload);
    assert PathAt(job.g, last.frontier[0]) == job.g.items[last.frontier[0]].path;
    SaveStores(job.g, job.codec, job.dest, before.store, before.parent, job.env.ids(before.saves), last,
               Some(suspension));
  }

  /** A completed execution that may write has stored its end, whatever the policy:
      the last super-step's, or that of a graph with nothing to run. */
  lemma CompletionIsStored(job: Job, n: nat, outcome: Outcome, after: Store)
    requires JobOk(job) && Explains(job, n, outcome, after) && outcome.RunCompleted?
    requires job.dest.mode == Enabled && StoreOk(job.start.store)
    requires outcome.steps > job.p.steps || (job.saveEmpty && job.p.frontier == [])
    ensures exists id, last: Position ::
              && last.frontier == [] && last.state == outcome.state && last.steps == outcome.steps
              && Keeps(job.g, job.codec, job.dest, after, id, last)
  {
    hide WellFormed, CompletesAll, Run, Candidate, SaveAll, StoreOk, RecordSays, VisitedBy, InterruptSave, RealNodes;
    var trace := TraceOf(job);
    TraceMeans(job);
    SavedAreReal(job, n);
    var positions, last := Opening(job.p, job.saveEmpty) + trace.committed[..n], LastPosition(job.p, trace);
    assert trace.committed[..n] == trace.committed;
    EndIsStored(job.g, job.codec, job.dest, job.env.ids, job.start, positions);
  }

  lemma Stopped(job: Job, n: nat, cur: Position, at: Progress, tick: nat)
    requires JobOk(job) && Underway(job, n, cur, at) && job.env.abort(tick)
    ensures Explains(job, n, RunAborted, at.store)
  {
    hide WellFormed, CompletesAll, Run, Candidate, SavedBy, VisitedBy, InterruptSave;
  }

  lemma NotStarted(job: Job, tick: nat)
    requires JobOk(job) && job.env.abort(tick)
    ensures Explains(job, 0, RunAborted, job.start.store)
  {
    hide WellFormed, CompletesAll, Run, Candidate, SavedBy, VisitedBy, InterruptSave;
  }

  /** Saves a suspended node's boundary and ends the execution. */
  method SaveSuspended(checkpoints: RunCheckpoints, g: CompiledGraph, codec: Codec, env: Environment, cur: Position,
                       payload: Payload, saves: nat, tick: nat, ghost job: Job, ghost n: nat)
    returns (outcome: Outcome)
    requires JobOk(job) && job.g == g && job.codec == codec && job.dest == checkpoints.dest && job.env == env
    requires Underway(job, n, cur, Progress(checkpoints.store.State(), checkpoints.expectedParent, saves))
    requires Affordable(job, cur) && StepAt(job, n, cur) == Suspended(payload) && StoreOk(checkpoints.store.State())
    modifies checkpoints, checkpoints.store
    ensures StoreOk(checkpoints.store.State()) && Explains(job, n, outcome, checkpoints.store.State())
  {
    hide WellFormed, CompletesAll, Candidate, StepAt, StoreOk, SaveBoundary, Explains;
    Stops(job, n, cur, Progress(checkpoints.store.State(), checkpoints.expectedParent, saves));
    var suspension := SuspensionAt(g, env, saves, cur, payload);
    var reply := checkpoints.Save(g, codec, env.ids(saves), cur, Some(suspension));
    if reply.Err? { return RunUnsaved(reply.error); }
    if env.abort(tick) { return RunAborted; }
    outcome := RunInterrupted(cur, payload, reply.value);
  }

  /** Saves a committed boundary when the policy asks for it; a refused save or a
      cancellation after it ends the execution. */
  method SaveCommitted(checkpoints: RunCheckpoints, g: CompiledGraph, codec: Codec, env: Environment, next: Position,
                       saves: nat, tick: nat, ghost job: Job, ghost n: nat, ghost cur: Position)
    returns (stop: Option<Outcome>, saved: nat, checked: nat)
    requires JobOk(job) && job.g == g && job.codec == codec && job.dest == checkpoints.dest && job.env == env
    requires Underway(job, n, cur, Progress(checkpoints.store.State(), checkpoints.expectedParent, saves))
    requires Affordable(job, cur) && StepAt(job, n, cur).Advanced? && StepAt(job, n, cur).next == next
    requires StoreOk(checkpoints.store.State())
    modifies checkpoints, checkpoints.store
    ensures StoreOk(checkpoints.store.State())
    ensures stop.Some? ==> Explains(job, n + 1, stop.value, checkpoints.store.State())
    ensures stop.None? ==>
              Underway(job, n + 1, next, Progress(checkpoints.store.State(), checkpoints.expectedParent, saved))
  {
    hide JobOk, TraceOf, StepAt, StoreOk, SaveBoundary, Explains, Underway, Affordable;
    stop, saved, checked := None, saves, tick;
    Advances(job, n, cur, Progress(checkpoints.store.State(), checkpoints.expectedParent, saves));
    if ShouldSave(checkpoints.dest, next.frontier == []) {
      var reply := checkpoints.Save(g, codec, env.ids(saves), next, None);
      if reply.Err? { return Some(RunUnsaved(reply.error)), saved, checked; }
      saved := saves + 1;
      if env.abort(tick) {
        Stopped(job, n + 1, next, Progress(checkpoints.store.State(), checkpoints.expectedParent, saved), tick);
        return Some(RunAborted), saved, checked;
      }
      checked := tick + 1;
    }
  }

  /** Saves an invocation that has nothing to run. */
  method SaveOpening(checkpoints: RunCheckpoints, g: CompiledGraph, codec: Codec, env: Environment, p: Position,
                     saveEmpty: bool, ghost job: Job)
    returns (stop: Option<Outcome>, saved: nat)
    requires JobOk(job) && job.g == g && job.codec == codec && job.dest == checkpoints.dest && job.env == env
    requires job.p == p && job.saveEmpty == saveEmpty
    requires job.start == Progress(checkpoints.store.State(), checkpoints.expectedParent, 0)
    requires StoreOk(checkpoints.store.State())
    modifies checkpoints, checkpoints.store
    ensures StoreOk(checkpoints.store.State())
    ensures stop.Some? ==> Explains(job, 0, stop.value, checkpoints.store.State())
    ensures stop.None? ==>
              Underway(job, 0, p, Progress(checkpoints.store.State(), checkpoints.expectedParent, saved))
  {
    hide WellFormed, CompletesAll, Candidate, StoreOk, SaveBoundary, Explains, Underway, VisitedBy, SavedBy;
    stop, saved := None, 0;
    Begin(job);
    if saveEmpty && p.frontier == [] && ShouldSave(checkpoints.dest, true) {
      var reply := checkpoints.Save(g, codec, env.ids(0), p, None);
      if reply.Err? { return Some(RunUnsaved(reply.error)), saved; }
      saved := 1;
    }
  }

  lemma StartsUnvisited(job: Job)
    requires JobOk(job)
    ensures VisitedBy(job, 0) == [] && ResumeAt(job.resume, 0) == job.resume
  {
    hide WellFormed, CompletesAll, Run, Candidate;
  }

  lemma VisitsMore(job: Job, n: nat, cur: Position, at: Progress)
    requires JobOk(job) && Underway(job, n, cur, at) && Affordable(job, cur) && StepAt(job, n, cur).Advanced?
    ensures RealNodes(job.g, cur.frontier) && StepAt(job, n, cur).next.steps == cur.steps + |cur.frontier|
    ensures n < |TraceOf(job).committed|
    ensures VisitedBy(job, n + 1) == VisitedBy(job, n) + PathsOf(job.g, cur.frontier)
  {
    hide WellFormed, CompletesAll, Run, Candidate, SaveNext, StepAt, SavedBy, VisitedBy, Explains;
    Advances(job, n, cur, at);
  }

  /** One execution, from a loaded or initial position. */
  method Execute(g: CompiledGraph, ops: StateOps, codec: Codec, checkpoints: RunCheckpoints, env: Environment,
                 p: Position, resume: Option<Resume>, maxSteps: nat, saveEmpty: bool)
    returns (outcome: Outcome, ghost n: nat)
    requires WellFormed(g) && FrontierOk(g, p.frontier) && CompletesAll(env.schedule)
    requires StoreOk(checkpoints.store.State())
    modifies checkpoints, checkpoints.store
    ensures StoreOk(checkpoints.store.State())
    ensures Explains(Job(g, ops, codec, checkpoints.dest, env,
                         Progress(old(checkpoints.store.State()), old(checkpoints.expectedParent), 0),
                         p, resume, maxSteps, saveEmpty), n, outcome, checkpoints.store.State())
    ensures RunsAsDescribed(Job(g, ops, codec, checkpoints.dest, env,
                                Progress(old(checkpoints.store.State()), old(checkpoints.expectedParent), 0),
                                p, resume, maxSteps, saveEmpty))
  {
    hide WellFormed, CompletesAll, Candidate, Superstep, Run, StoreOk, Explains, Underway, VisitedBy, TraceOf,
         RunsAsDescribed;
    ghost var job := Job(g, ops, codec, checkpoints.dest, env,
                         Progress(checkpoints.store.State(), checkpoints.expectedParent, 0),
                         p, resume, maxSteps, saveEmpty);
    n := 0;
    TraceMeans(job);
    if env.abort(0) {
      NotStarted(job, 0);
      return RunAborted, n;
    }
    var stop, saves := SaveOpening(checkpoints, g, codec, env, p, saveEmpty, job);
    if stop.Some? { return stop.value, n; }
    StartsUnvisited(job);
    var limit := StepLimit(p.steps, maxSteps);
    var cur, value, visited := p, resume, [];
    var tick: nat := 1;
    while cur.frontier != []
      invariant StoreOk(checkpoints.store.State())
      invariant Underway(job, n, cur, Progress(checkpoints.store.State(), checkpoints.expectedParent, saves))
      invariant value == ResumeAt(resume, n)
      invariant n <= |TraceOf(job).committed| && visited == VisitedBy(job, n)
      decreases Remaining(limit, cur.steps)
    {
      ghost var at := Progress(checkpoints.store.State(), checkpoints.expectedParent, saves);
      UnderwayFrontier(job, n, cur, at);
      if env.abort(tick) {
        Stopped(job, n, cur, at, tick);
        return RunAborted, n;
      }
      tick := tick + 1;
      if |cur.frontier| > Remaining(limit, cur.steps) {
        Ends(job, n, cur, at);
        return RunFailed(BudgetError(g, cur, limit, maxSteps)), n;
      }
      Stops(job, n, cur, at);
      ghost var order := OrderOf(env.schedule, cur);
      var step := TakeSuperstep(g, ops, checkpoints.dest.mode, cur, value, env.schedule(cur.superstep, |cur.frontier|));
      match step
      case StepFailed(error) => return RunFailed(error), n;
      case Spinning => return RunSpins, n;
      case Panicking => return RunPanicked, n;
      case Suspended(payload) =>
        outcome := SaveSuspended(checkpoints, g, codec, env, cur, payload, saves, tick, job, n);
        return;
      case Advanced(next, _) =>
        VisitsMore(job, n, cur, at);
        visited := visited + PathsOf(g, cur.frontier);
        stop, saves, tick := SaveCommitted(checkpoints, g, codec, env, next, saves, tick, job, n, cur);
        n := n + 1;
        if stop.Some? { return stop.value, n; }
        cur, value := next, None;
    }
    ghost var at := Progress(checkpoints.store.State(), checkpoints.expectedParent, saves);
    if env.abort(tick) {
      Stopped(job, n, cur, at, tick);
      return RunAborted, n;
    }
    Ends(job, n, cur, at);
    outcome := RunCompleted(cur.state, cur.steps, visited);
  }
}
