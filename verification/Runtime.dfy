/** Super-steps over a compiled graph, as functions of the committed state
    (crates/group-agent-core/src/runtime.rs:368-1033). */
module Runtime {
  import opened Base
  import opened Domain
  import opened Paths
  import opened Transitions
  import opened Compiled

  datatype NodeUpdate = NodeUpdate(path: NodePath, update: Update)

  /** The reducers of the application state. */
  datatype StateOps = StateOps(
    apply: (State, Update) -> Result<State, Cause>,
    applyBatch: (State, seq<NodeUpdate>) -> Result<State, Cause>)

  /** Who may write checkpoints: nobody, a read-only replay, or this run. */
  datatype CheckpointMode = Disabled | ReadOnly | Enabled

  datatype RunError =
    | MaxStepsExceeded(maxSteps: nat, node: NodePath, step: nat)
    | NodeFailed(node: NodePath, step: nat, cause: Cause)
    | StateUpdateFailed(node: NodePath, step: nat, cause: Cause)
    | StateBatchUpdateFailed(nodes: seq<NodePath>, step: nat, cause: Cause)
    | RouteFailed(node: NodePath, step: nat, error: TransitionError)
    | InterruptRequiresCheckpoint(node: NodePath, step: nat)
    | UnsupportedParallelInterrupt(node: NodePath, step: nat)
    | ReplayInterruptUnsupported(node: NodePath, step: nat)

  /** A committed boundary: everything a checkpoint has to remember. */
  datatype Position = Position(state: State, steps: nat, superstep: nat, frontier: seq<nat>)

  /** The value a resumed run hands to the interrupted node, for one attempt. */
  datatype Resume = Resume(node: nat, value: ResumeValue)

  // ---- routing ----

  datatype RouteFault = RouteFault(offset: nat, error: TransitionError)

  predicate InGraph(g: CompiledGraph, frontier: seq<nat>) {
    forall k :: 0 <= k < |frontier| ==> frontier[k] < |g.items|
  }

  predicate RealNodes(g: CompiledGraph, frontier: seq<nat>) {
    forall k :: 0 <= k < |frontier| ==> frontier[k] < |g.items| && g.items[frontier[k]].Node?
  }

  /** The targets of the whole frontier in source order, or the first failing
      source. */
  function RouteAll(g: CompiledGraph, frontier: seq<nat>, state: State): Result<seq<nat>, RouteFault>
    requires InGraph(g, frontier)
  {
    if frontier == [] then Ok([])
    else
      var last := |frontier| - 1;
      match RouteAll(g, frontier[..last], state)
      case Err(fault) => Err(fault)
      case Ok(targets) =>
        match RouteTargets(g.items[frontier[last]].transition, state)
        case Err(error) => Err(RouteFault(last, error))
        case Ok(more) => Ok(targets + more)
  }

  /** Sorts, deduplicates and, when a scope has nothing left to run, leaves it. */
  function NextFrontier(g: CompiledGraph, scope: GraphPath, targets: seq<nat>): seq<nat> {
    var sorted := SortDedup(targets);
    if sorted == [] && scope in g.scopeExits then [g.scopeExits[scope]] else sorted
  }

  // ---- entering and leaving scopes ----

  datatype SubgraphBoundary = Started(path: GraphPath) | Completed(path: GraphPath)

  /** Whether normalization has to act: the frontier is one structural item. */
  predicate IsStructural(g: CompiledGraph, frontier: seq<nat>) {
    |frontier| == 1 && frontier[0] < |g.items| && !g.items[frontier[0]].Node?
  }

  function StructuralPath(item: CompiledItem): NodePath
    requires !item.Node?
  {
    if item.EnterSubgraph? then item.graphPath else item.mountPath
  }

  function BoundaryOf(item: CompiledItem): SubgraphBoundary
    requires !item.Node?
  {
    if item.EnterSubgraph? then Started(item.graphPath) else Completed(item.graphPath)
  }

  function ParentOf(path: NodePath): GraphPath { if path == [] then ROOT else GraphPathOf(path) }

  /** One structural move: an entry opens its scope, an exit closes it and follows
      the mount's own transition. */
  function StructuralMove(g: CompiledGraph, item: CompiledItem, state: State): Result<seq<nat>, TransitionError>
    requires !item.Node?
  {
    match RouteTargets(item.transition, state)
    case Err(error) => Err(error)
    case Ok(targets) =>
      if item.EnterSubgraph? then Ok(targets) else Ok(NextFrontier(g, ParentOf(item.mountPath), targets))
  }

  datatype Normalized =
    | Settled(frontier: seq<nat>, boundaries: seq<SubgraphBoundary>)
    | Misrouted(node: NodePath, error: TransitionError)
    | Unsettled

  /** What normalization answers once these scopes have been crossed first. */
  function Crossing(boundaries: seq<SubgraphBoundary>, rest: Normalized): Normalized {
    if rest.Settled? then Settled(rest.frontier, boundaries + rest.boundaries) else rest
  }

  lemma CrossingJoins(first: seq<SubgraphBoundary>, second: seq<SubgraphBoundary>, rest: Normalized)
    ensures Crossing(first + second, rest) == Crossing(first, Crossing(second, rest))
    ensures Crossing([], rest) == rest
  {
    if rest.Settled? {
      assert (first + second) + rest.boundaries == first + (second + rest.boundaries);
      assert [] + rest.boundaries == rest.boundaries;
    }
  }

  /** At most `fuel` structural moves. */
  function Normalize(g: CompiledGraph, frontier: seq<nat>, state: State, fuel: nat): Normalized
    decreases fuel
  {
    if !IsStructural(g, frontier) then Settled(frontier, [])
    else if fuel == 0 then Unsettled
    else
      var item := g.items[frontier[0]];
      match StructuralMove(g, item, state)
      case Err(error) => Misrouted(StructuralPath(item), error)
      case Ok(next) =>
        Crossing([BoundaryOf(item)], Normalize(g, next, state, fuel - 1))
  }

  lemma NormalizeStep(g: CompiledGraph, frontier: seq<nat>, state: State, fuel: nat)
    requires IsStructural(g, frontier)
    ensures var item := g.items[frontier[0]];
            && (StructuralMove(g, item, state).Err? ==>
                  Normalize(g, frontier, state, fuel + 1)
                  == Misrouted(StructuralPath(item), StructuralMove(g, item, state).error))
            && (StructuralMove(g, item, state).Ok? ==>
                  Normalize(g, frontier, state, fuel + 1)
                  == Crossing([BoundaryOf(item)], Normalize(g, StructuralMove(g, item, state).value, state, fuel)))
  {
  }

  lemma NormalizeRests(g: CompiledGraph, frontier: seq<nat>, state: State, fuel: nat)
    ensures !IsStructural(g, frontier) ==> Normalize(g, frontier, state, fuel) == Settled(frontier, [])
    ensures IsStructural(g, frontier) ==> Normalize(g, frontier, state, 0) == Unsettled
  {
  }

  /** More moves than structural items means some item repeats, and then
      normalization never settles. */
  function Settle(g: CompiledGraph, frontier: seq<nat>, state: State): Normalized {
    Normalize(g, frontier, state, |g.items| + 1)
  }

  // ---- running the frontier ----

  function PathAt(g: CompiledGraph, index: nat): NodePath
    requires index < |g.items|
  {
    match g.items[index]
    case Node(path, _, _, _) => path
    case EnterSubgraph(graphPath, _) => graphPath
    case ExitSubgraph(_, mountPath, _) => mountPath
  }

  function PathsOf(g: CompiledGraph, frontier: seq<nat>): (paths: seq<NodePath>)
    requires InGraph(g, frontier)
    ensures |paths| == |frontier|
    ensures forall k :: 0 <= k < |paths| ==> paths[k] == PathAt(g, frontier[k])
  {
    seq(|frontier|, k requires 0 <= k < |frontier| => PathAt(g, frontier[k]))
  }

  /** The result of the node at one offset of the frontier. Every node of a
      super-step reads the same committed state. */
  function NodeResult(g: CompiledGraph, p: Position, resume: Option<Resume>, offset: nat): Result<NodeOutcome, Cause>
    requires RealNodes(g, p.frontier) && offset < |p.frontier|
  {
    var index := p.frontier[offset];
    var value := if resume.Some? && resume.value.node == index then Some(resume.value.value) else None;
    RunNode(g.items[index].kind, p.state, NodeContext(p.steps + offset + 1, g.items[index].path, value))
  }

  function InterruptError(mode: CheckpointMode, node: NodePath, step: nat, parallel: bool): Option<RunError> {
    match mode
    case Disabled =>
      Some(if parallel then UnsupportedParallelInterrupt(node, step) else InterruptRequiresCheckpoint(node, step))
    case ReadOnly => Some(ReplayInterruptUnsupported(node, step))
    case Enabled => if parallel then Some(UnsupportedParallelInterrupt(node, step)) else None
  }

  /** What one parallel completion does: nothing, or fails the super-step. */
  function CompletionFault(g: CompiledGraph, mode: CheckpointMode, p: Position, resume: Option<Resume>, offset: nat)
    : Option<RunError>
    requires RealNodes(g, p.frontier) && offset < |p.frontier|
  {
    var node, step := g.items[p.frontier[offset]].path, p.steps + offset + 1;
    match NodeResult(g, p, resume, offset)
    case Err(cause) => Some(NodeFailed(node, step, cause))
    case Ok(Interrupt(_)) => InterruptError(mode, node, step, true)
    case Ok(Produced(_)) => None
  }

  predicate Offsets(order: seq<nat>, width: nat) { forall k :: 0 <= k < |order| ==> order[k] < width }

  /** The first fault met when completions arrive in this order. */
  function ParallelFault(g: CompiledGraph, mode: CheckpointMode, p: Position, resume: Option<Resume>, order: seq<nat>)
    : Option<RunError>
    requires RealNodes(g, p.frontier) && Offsets(order, |p.frontier|)
  {
    if order == [] then None
    else if CompletionFault(g, mode, p, resume, order[0]).Some? then CompletionFault(g, mode, p, resume, order[0])
    else ParallelFault(g, mode, p, resume, order[1..])
  }

  predicate AllProduced(g: CompiledGraph, p: Position, resume: Option<Resume>)
    requires RealNodes(g, p.frontier)
  {
    forall k :: 0 <= k < |p.frontier| ==>
      NodeResult(g, p, resume, k).Ok? && NodeResult(g, p, resume, k).value.Produced?
  }

  /** The batch in compiled-node order, whatever order completions arrived in. */
  function Batch(g: CompiledGraph, p: Position, resume: Option<Resume>): (batch: seq<NodeUpdate>)
    requires RealNodes(g, p.frontier) && AllProduced(g, p, resume)
    ensures |batch| == |p.frontier|
    ensures forall k :: 0 <= k < |batch| ==>
              batch[k] == NodeUpdate(g.items[p.frontier[k]].path, NodeResult(g, p, resume, k).value.update)
  {
    seq(|p.frontier|, k requires 0 <= k < |p.frontier| =>
      NodeUpdate(g.items[p.frontier[k]].path, NodeResult(g, p, resume, k).value.update))
  }

  datatype Commit = Committed(state: State) | Held(payload: Payload) | Rejected(error: RunError)

  predicate IsCompletionOrder(order: seq<nat>, width: nat) {
    && |order| == width && Offsets(order, width)
    && (forall i, j :: 0 <= i < j < |order| ==> order[i] != order[j])
    && (forall k :: 0 <= k < width ==> k in order)
  }

  function CommitOne(g: CompiledGraph, ops: StateOps, mode: CheckpointMode, p: Position, resume: Option<Resume>): Commit
    requires RealNodes(g, p.frontier) && |p.frontier| == 1
  {
    var node, step := g.items[p.frontier[0]].path, p.steps + 1;
    match NodeResult(g, p, resume, 0)
    case Err(cause) => Rejected(NodeFailed(node, step, cause))
    case Ok(Interrupt(payload)) =>
      var error := InterruptError(mode, node, step, false);
      if error.Some? then Rejected(error.value) else Held(payload)
    case Ok(Produced(update)) =>
      match ops.apply(p.state, update)
      case Err(cause) => Rejected(StateUpdateFailed(node, step, cause))
      case Ok(state) => Committed(state)
  }

  lemma {:induction false} NoParallelFault(g: CompiledGraph, mode: CheckpointMode, p: Position,
                                           resume: Option<Resume>, order: seq<nat>)
    requires RealNodes(g, p.frontier) && Offsets(order, |p.frontier|)
    ensures ParallelFault(g, mode, p, resume, order).None? <==>
            forall k :: k in order ==> NodeResult(g, p, resume, k).Ok? && NodeResult(g, p, resume, k).value.Produced?
  {
    if order != [] {
      NoParallelFault(g, mode, p, resume, order[1..]);
      assert order == [order[0]] + order[1..];
    }
  }

  function CommitMany(g: CompiledGraph, ops: StateOps, mode: CheckpointMode, p: Position, resume: Option<Resume>,
                      order: seq<nat>): Commit
    requires RealNodes(g, p.frontier) && IsCompletionOrder(order, |p.frontier|)
  {
    NoParallelFault(g, mode, p, resume, order);
    match ParallelFault(g, mode, p, resume, order)
    case Some(error) => Rejected(error)
    case None =>
      match ops.applyBatch(p.state, Batch(g, p, resume))
      case Err(cause) => Rejected(StateBatchUpdateFailed(PathsOf(g, p.frontier), p.steps + 1, cause))
      case Ok(state) => Committed(state)
  }

  function CommitFrontier(g: CompiledGraph, ops: StateOps, mode: CheckpointMode, p: Position,
                          resume: Option<Resume>, order: seq<nat>): Commit
    requires RealNodes(g, p.frontier) && p.frontier != [] && IsCompletionOrder(order, |p.frontier|)
  {
    if |p.frontier| == 1 then CommitOne(g, ops, mode, p, resume) else CommitMany(g, ops, mode, p, resume, order)
  }

  // ---- one super-step ----

  datatype StepOutcome =
    | Advanced(next: Position, boundaries: seq<SubgraphBoundary>)
    | Suspended(payload: Payload)
    | StepFailed(error: RunError)
    | Spinning
    | Panicking

  /** Enters and leaves scopes from a routed frontier, and lands on the next
      committed boundary. A settled frontier with a structural item in it fails the
      debug assertion of normalization, or `node_at` at the latest in the next
      super-step. */
  function Arrive(g: CompiledGraph, p: Position, next: seq<nat>, committed: State): StepOutcome {
    match Settle(g, next, committed)
    case Settled(frontier, boundaries) =>
      if RealNodes(g, frontier) then
        Advanced(Position(committed, p.steps + |p.frontier|, p.superstep + 1, frontier), boundaries)
      else Panicking
    case Misrouted(node, error) => StepFailed(RouteFailed(node, p.steps + |p.frontier|, error))
    case Unsettled => Spinning
  }

  /** Routing, scope exit and normalization after a commit. */
  function RouteOn(g: CompiledGraph, p: Position, committed: State): StepOutcome
    requires RealNodes(g, p.frontier) && p.frontier != []
  {
    match RouteAll(g, p.frontier, committed)
    case Err(fault) =>
      assert fault.offset < |p.frontier| by { RouteAllOffsets(g, p.frontier, committed); }
      StepFailed(RouteFailed(g.items[p.frontier[fault.offset]].path, p.steps + fault.offset + 1, fault.error))
    case Ok(targets) =>
      Arrive(g, p, NextFrontier(g, g.items[p.frontier[0]].graphPath, targets), committed)
  }

  lemma {:induction false} RouteAllOffsets(g: CompiledGraph, frontier: seq<nat>, state: State)
    requires InGraph(g, frontier)
    ensures RouteAll(g, frontier, state).Err? ==> RouteAll(g, frontier, state).error.offset < |frontier|
  {
    if frontier != [] {
      RouteAllOffsets(g, frontier[..|frontier| - 1], state);
    }
  }

  /** Run the frontier, commit, route, leave or enter scopes. */
  function Superstep(g: CompiledGraph, ops: StateOps, mode: CheckpointMode, p: Position, resume: Option<Resume>,
                     order: seq<nat>): StepOutcome
    requires RealNodes(g, p.frontier) && p.frontier != [] && IsCompletionOrder(order, |p.frontier|)
  {
    match CommitFrontier(g, ops, mode, p, resume, order)
    case Rejected(error) => StepFailed(error)
    case Held(payload) => Suspended(payload)
    case Committed(state) => RouteOn(g, p, state)
  }

  lemma CommitIsOrderFree(g: CompiledGraph, ops: StateOps, mode: CheckpointMode, p: Position,
                          resume: Option<Resume>, a: seq<nat>, b: seq<nat>)
    requires RealNodes(g, p.frontier) && p.frontier != []
    requires IsCompletionOrder(a, |p.frontier|) && IsCompletionOrder(b, |p.frontier|)
    ensures CommitFrontier(g, ops, mode, p, resume, a) == CommitFrontier(g, ops, mode, p, resume, b)
            || (!AllProduced(g, p, resume) && |p.frontier| > 1
                && CommitFrontier(g, ops, mode, p, resume, a).Rejected?
                && CommitFrontier(g, ops, mode, p, resume, b).Rejected?)
  {
    hide NodeResult, CompletionFault, ParallelFault, CommitOne;
    if |p.frontier| > 1 {
      NoParallelFault(g, mode, p, resume, a);
      NoParallelFault(g, mode, p, resume, b);
    }
  }

  /** Completion order decides at most which error a failing super-step reports:
      the batch, the committed state, the next frontier and every other outcome
      do not depend on it. A super-step that commits counts each of its nodes. */
  lemma ScheduleIndependence(g: CompiledGraph, ops: StateOps, mode: CheckpointMode, p: Position,
                             resume: Option<Resume>, a: seq<nat>, b: seq<nat>)
    requires RealNodes(g, p.frontier) && p.frontier != []
    requires IsCompletionOrder(a, |p.frontier|) && IsCompletionOrder(b, |p.frontier|)
    ensures Superstep(g, ops, mode, p, resume, a) == Superstep(g, ops, mode, p, resume, b)
            || (!AllProduced(g, p, resume) && |p.frontier| > 1
                && Superstep(g, ops, mode, p, resume, a).StepFailed?
                && Superstep(g, ops, mode, p, resume, b).StepFailed?)
    ensures Superstep(g, ops, mode, p, resume, a).Advanced? ==>
              Superstep(g, ops, mode, p, resume, a).next.steps == p.steps + |p.frontier|
  {
    hide CommitFrontier, IsCompletionOrder, AllProduced;
    CommitIsOrderFree(g, ops, mode, p, resume, a, b);
  }
}
