/** What one super-step does, said from the items of the graph and the functions the
    application supplied: a reference definition that the runtime's function is
    proved to agree with (crates/group-agent-core/src/runtime.rs:420-874, 900-976,
    1885-1966). */
module StepMeaning {
  import opened Base
  import opened Domain
  import opened Paths
  import opened Transitions
  import opened Compiled
  import opened Runtime
  import opened Frontiers
  import opened Mounting

  // ---- what a node is given and answers ----

  /** The node at offset k is handed its own step and path, and the resume value
      exactly when that is meant for it. */
  ghost predicate Handed(g: CompiledGraph, p: Position, resume: Option<Resume>, k: nat, c: NodeContext) {
    && k < |p.frontier| && p.frontier[k] < |g.items| && g.items[p.frontier[k]].Node?
    && c.step == p.steps + k + 1 && c.path == g.items[p.frontier[k]].path
    && forall value :: c.resume == Some(value) <==> resume == Some(Resume(p.frontier[k], value))
  }

  /** The answer of a node's own function. */
  ghost predicate Answers(kind: NodeKind, state: State, c: NodeContext, answer: Result<NodeOutcome, Cause>) {
    match kind
    case Normal(run) =>
      && (forall update :: run(state, c) == Ok(update) ==> answer == Ok(Produced(update)))
      && (forall cause :: run(state, c) == Err(cause) ==> answer == Err(cause))
    case Interruptible(run) => answer == run(state, c)
  }

  /** The node at offset k answers this, in the committed state. */
  ghost predicate NodeAnswers(g: CompiledGraph, p: Position, resume: Option<Resume>, k: nat,
                              answer: Result<NodeOutcome, Cause>)
  {
    exists c :: Handed(g, p, resume, k, c) && Answers(g.items[p.frontier[k]].kind, p.state, c, answer)
  }

  ghost predicate Produces(g: CompiledGraph, p: Position, resume: Option<Resume>, k: nat) {
    exists update :: NodeAnswers(g, p, resume, k, Ok(Produced(update)))
  }

  // ---- committing ----

  /** One update of each node, in the order of the frontier. */
  ghost predicate IsBatch(g: CompiledGraph, p: Position, resume: Option<Resume>, batch: seq<NodeUpdate>)
    requires InGraph(g, p.frontier)
  {
    && |batch| == |p.frontier|
    && forall k :: 0 <= k < |batch| ==>
         && batch[k].path == PathAt(g, p.frontier[k])
         && NodeAnswers(g, p, resume, k, Ok(Produced(batch[k].update)))
  }

  /** The super-step commits this state. */
  ghost predicate Commits(g: CompiledGraph, ops: StateOps, p: Position, resume: Option<Resume>, state: State)
    requires InGraph(g, p.frontier)
  {
    if |p.frontier| == 1 then
      exists update ::
        NodeAnswers(g, p, resume, 0, Ok(Produced(update))) && ops.apply(p.state, update) == Ok(state)
    else
      exists batch :: IsBatch(g, p, resume, batch) && ops.applyBatch(p.state, batch) == Ok(state)
  }

  /** A node alone in its frontier may suspend a run that saves checkpoints. */
  ghost predicate Suspends(g: CompiledGraph, mode: CheckpointMode, p: Position, resume: Option<Resume>,
                           payload: Payload)
  {
    |p.frontier| == 1 && mode == Enabled && NodeAnswers(g, p, resume, 0, Ok(Interrupt(payload)))
  }

  /** The node alone fails, or suspends where nobody may, or its update is refused. */
  ghost predicate FailsAlone(g: CompiledGraph, ops: StateOps, mode: CheckpointMode, p: Position,
                             resume: Option<Resume>, error: RunError)
    requires InGraph(g, p.frontier) && |p.frontier| == 1
  {
    var node, step := PathAt(g, p.frontier[0]), p.steps + 1;
    || (exists cause :: NodeAnswers(g, p, resume, 0, Err(cause)) && error == NodeFailed(node, step, cause))
    || (exists payload :: NodeAnswers(g, p, resume, 0, Ok(Interrupt(payload))) && mode == Disabled
                          && error == InterruptRequiresCheckpoint(node, step))
    || (exists payload :: NodeAnswers(g, p, resume, 0, Ok(Interrupt(payload))) && mode == ReadOnly
                          && error == ReplayInterruptUnsupported(node, step))
    || (exists update, cause ::
          && NodeAnswers(g, p, resume, 0, Ok(Produced(update))) && ops.apply(p.state, update) == Err(cause)
          && error == StateUpdateFailed(node, step, cause))
  }

  /** One of several nodes fails, or suspends, which it may not in any mode. */
  ghost predicate FailsAt(g: CompiledGraph, mode: CheckpointMode, p: Position, resume: Option<Resume>, k: nat,
                          error: RunError)
    requires InGraph(g, p.frontier) && k < |p.frontier|
  {
    var node, step := PathAt(g, p.frontier[k]), p.steps + k + 1;
    || (exists cause :: NodeAnswers(g, p, resume, k, Err(cause)) && error == NodeFailed(node, step, cause))
    || (exists payload :: NodeAnswers(g, p, resume, k, Ok(Interrupt(payload))) && mode != ReadOnly
                          && error == UnsupportedParallelInterrupt(node, step))
    || (exists payload :: NodeAnswers(g, p, resume, k, Ok(Interrupt(payload))) && mode == ReadOnly
                          && error == ReplayInterruptUnsupported(node, step))
  }

  /** The first failing completion in this order. */
  ghost predicate FirstFailure(g: CompiledGraph, mode: CheckpointMode, p: Position, resume: Option<Resume>,
                               order: seq<nat>, error: RunError)
    requires InGraph(g, p.frontier) && Offsets(order, |p.frontier|)
  {
    exists j :: 0 <= j < |order| && FailsAt(g, mode, p, resume, order[j], error)
                && forall i :: 0 <= i < j ==> Produces(g, p, resume, order[i])
  }

  /** The first of several completions that is not an update decides, and otherwise
      the whole batch is refused. */
  ghost predicate FailsTogether(g: CompiledGraph, ops: StateOps, mode: CheckpointMode, p: Position,
                                resume: Option<Resume>, order: seq<nat>, error: RunError)
    requires InGraph(g, p.frontier) && Offsets(order, |p.frontier|)
  {
    || FirstFailure(g, mode, p, resume, order, error)
    || (exists batch, cause ::
          && IsBatch(g, p, resume, batch) && ops.applyBatch(p.state, batch) == Err(cause)
          && error == StateBatchUpdateFailed(PathsOf(g, p.frontier), p.steps + 1, cause))
  }

  ghost predicate Fails(g: CompiledGraph, ops: StateOps, mode: CheckpointMode, p: Position, resume: Option<Resume>,
                        order: seq<nat>, error: RunError)
    requires InGraph(g, p.frontier) && Offsets(order, |p.frontier|)
  {
    if |p.frontier| == 1 then FailsAlone(g, ops, mode, p, resume, error)
    else FailsTogether(g, ops, mode, p, resume, order, error)
  }

  // ---- agreement of the commit ----

  lemma NodeAnswersOnce(g: CompiledGraph, p: Position, resume: Option<Resume>, k: nat)
    requires RealNodes(g, p.frontier) && k < |p.frontier|
    ensures forall answer :: NodeAnswers(g, p, resume, k, answer) <==> answer == NodeResult(g, p, resume, k)
  {
    var i := p.frontier[k];
    var value := if resume.Some? && resume.value.node == i then Some(resume.value.value) else None;
    var context := NodeContext(p.steps + k + 1, g.items[i].path, value);
    forall v ensures value == Some(v) <==> resume == Some(Resume(i, v)) {}
    assert Handed(g, p, resume, k, context);
    forall c | Handed(g, p, resume, k, c) ensures c == context { SameResume(resume, i, c.resume, value); }
    assert Answers(g.items[i].kind, p.state, context, NodeResult(g, p, resume, k));
  }

  lemma SameResume(resume: Option<Resume>, i: nat, a: Option<ResumeValue>, b: Option<ResumeValue>)
    requires forall v :: a == Some(v) <==> resume == Some(Resume(i, v))
    requires forall v :: b == Some(v) <==> resume == Some(Resume(i, v))
    ensures a == b
  {
    if a.Some? { assert resume == Some(Resume(i, a.value)); }
    if b.Some? { assert resume == Some(Resume(i, b.value)); }
  }

  lemma CommitsOnce(g: CompiledGraph, ops: StateOps, mode: CheckpointMode, p: Position, resume: Option<Resume>)
    requires RealNodes(g, p.frontier) && |p.frontier| == 1
    ensures forall state ::
              CommitOne(g, ops, mode, p, resume) == Committed(state) <==> Commits(g, ops, p, resume, state)
    ensures forall payload ::
              CommitOne(g, ops, mode, p, resume) == Held(payload) <==> Suspends(g, mode, p, resume, payload)
    ensures forall error ::
              CommitOne(g, ops, mode, p, resume) == Rejected(error) <==> FailsAlone(g, ops, mode, p, resume, error)
  {
    hide NodeResult, NodeAnswers;
    NodeAnswersOnce(g, p, resume, 0);
    assert PathAt(g, p.frontier[0]) == g.items[p.frontier[0]].path;
  }

  lemma CompletionMeans(g: CompiledGraph, mode: CheckpointMode, p: Position, resume: Option<Resume>, k: nat)
    requires RealNodes(g, p.frontier) && k < |p.frontier|
    ensures forall error ::
              CompletionFault(g, mode, p, resume, k) == Some(error) <==> FailsAt(g, mode, p, resume, k, error)
    ensures CompletionFault(g, mode, p, resume, k).None? <==> Produces(g, p, resume, k)
  {
    hide NodeResult, NodeAnswers;
    NodeAnswersOnce(g, p, resume, k);
    assert PathAt(g, p.frontier[k]) == g.items[p.frontier[k]].path;
  }

  lemma {:induction false} FirstFailureMeans(g: CompiledGraph, mode: CheckpointMode, p: Position,
                                             resume: Option<Resume>, order: seq<nat>, error: RunError)
    requires RealNodes(g, p.frontier) && Offsets(order, |p.frontier|)
    ensures ParallelFault(g, mode, p, resume, order) == Some(error) <==>
            FirstFailure(g, mode, p, resume, order, error)
  {
    hide CompletionFault, FailsAt, Produces;
    if order != [] {
      var rest := order[1..];
      CompletionMeans(g, mode, p, resume, order[0]);
      FirstFailureMeans(g, mode, p, resume, rest, error);
      if FirstFailure(g, mode, p, resume, order, error) && Produces(g, p, resume, order[0]) {
        var j :| 0 <= j < |order| && FailsAt(g, mode, p, resume, order[j], error)
                 && forall i :: 0 <= i < j ==> Produces(g, p, resume, order[i]);
        if j > 0 {
          assert rest[j - 1] == order[j] && forall i :: 0 <= i < j - 1 ==> rest[i] == order[i + 1];
        }
      }
      if FirstFailure(g, mode, p, resume, rest, error) && Produces(g, p, resume, order[0]) {
        var j :| 0 <= j < |rest| && FailsAt(g, mode, p, resume, rest[j], error)
                 && forall i :: 0 <= i < j ==> Produces(g, p, resume, rest[i]);
        assert order[j + 1] == rest[j] && forall i :: 0 < i < j + 1 ==> order[i] == rest[i - 1];
      }
    }
  }

  lemma BatchMeans(g: CompiledGraph, p: Position, resume: Option<Resume>)
    requires RealNodes(g, p.frontier)
    ensures forall batch :: IsBatch(g, p, resume, batch) <==> AllProduced(g, p, resume) && batch == Batch(g, p, resume)
  {
    hide NodeResult, NodeAnswers;
    forall k | 0 <= k < |p.frontier|
      ensures PathAt(g, p.frontier[k]) == g.items[p.frontier[k]].path
      ensures forall answer :: NodeAnswers(g, p, resume, k, answer) <==> answer == NodeResult(g, p, resume, k)
    {
      NodeAnswersOnce(g, p, resume, k);
    }
    forall batch: seq<NodeUpdate> | IsBatch(g, p, resume, batch)
      ensures AllProduced(g, p, resume) && batch == Batch(g, p, resume)
    {
      assert forall k :: 0 <= k < |batch| ==> NodeResult(g, p, resume, k) == Ok(Produced(batch[k].update));
    }
  }

  lemma CommitsTogether(g: CompiledGraph, ops: StateOps, mode: CheckpointMode, p: Position, resume: Option<Resume>,
                        order: seq<nat>)
    requires RealNodes(g, p.frontier) && |p.frontier| > 1 && IsCompletionOrder(order, |p.frontier|)
    ensures forall state ::
              CommitMany(g, ops, mode, p, resume, order) == Committed(state) <==> Commits(g, ops, p, resume, state)
    ensures forall payload :: CommitMany(g, ops, mode, p, resume, order) != Held(payload)
    ensures forall error ::
              CommitMany(g, ops, mode, p, resume, order) == Rejected(error) <==>
              FailsTogether(g, ops, mode, p, resume, order, error)
  {
    hide NodeResult, ParallelFault, AllProduced, Batch, IsBatch, FirstFailure;
    CommitManyIs(g, ops, mode, p, resume, order);
    BatchMeans(g, p, resume);
    AllOrFault(g, mode, p, resume, order);
    forall error
      ensures ParallelFault(g, mode, p, resume, order) == Some(error) <==>
              FirstFailure(g, mode, p, resume, order, error)
    {
      FirstFailureMeans(g, mode, p, resume, order, error);
    }
  }

  lemma AllOrFault(g: CompiledGraph, mode: CheckpointMode, p: Position, resume: Option<Resume>, order: seq<nat>)
    requires RealNodes(g, p.frontier) && IsCompletionOrder(order, |p.frontier|)
    ensures ParallelFault(g, mode, p, resume, order).None? <==> AllProduced(g, p, resume)
  {
    hide NodeResult, ParallelFault;
    NoParallelFault(g, mode, p, resume, order);
  }

  /** The commit is what the nodes answer, reduced; its failures are theirs. */
  lemma CommitMeans(g: CompiledGraph, ops: StateOps, mode: CheckpointMode, p: Position, resume: Option<Resume>,
                    order: seq<nat>)
    requires RealNodes(g, p.frontier) && p.frontier != [] && IsCompletionOrder(order, |p.frontier|)
    ensures forall state ::
              CommitFrontier(g, ops, mode, p, resume, order) == Committed(state) <==> Commits(g, ops, p, resume, state)
    ensures forall payload ::
              CommitFrontier(g, ops, mode, p, resume, order) == Held(payload) <==> Suspends(g, mode, p, resume, payload)
    ensures forall error ::
              CommitFrontier(g, ops, mode, p, resume, order) == Rejected(error) <==>
              Fails(g, ops, mode, p, resume, order, error)
  {
    hide CommitOne, CommitMany, Commits, FailsAlone, FailsTogether, IsCompletionOrder, NodeAnswers;
    OrderIsOffsets(order, |p.frontier|);
    if |p.frontier| == 1 {
      CommitsOnce(g, ops, mode, p, resume);
    } else {
      CommitsTogether(g, ops, mode, p, resume, order);
    }
  }

  lemma OrderIsOffsets(order: seq<nat>, width: nat)
    requires IsCompletionOrder(order, width)
    ensures Offsets(order, width)
  {
  }

  // ---- routing ----

  /** Every item of the frontier routes, and these are the indices they activate. */
  ghost predicate Activated(g: CompiledGraph, frontier: seq<nat>, state: State, targets: seq<nat>)
    requires InGraph(g, frontier)
  {
    && (forall k :: 0 <= k < |frontier| ==> RouteTargets(g.items[frontier[k]].transition, state).Ok?)
    && StrictlyAscending(targets)
    && forall x :: x in targets <==> HasSource(g, frontier, state, x)
  }

  /** Some item of the frontier activates x. */
  ghost predicate HasSource(g: CompiledGraph, frontier: seq<nat>, state: State, x: nat)
    requires InGraph(g, frontier)
  {
    exists k :: 0 <= k < |frontier| && RouteTargets(g.items[frontier[k]].transition, state).Ok?
                && x in RouteTargets(g.items[frontier[k]].transition, state).value
  }

  /** The first item of the frontier whose router fails. */
  ghost predicate Misroutes(g: CompiledGraph, frontier: seq<nat>, state: State, k: nat, error: TransitionError)
    requires InGraph(g, frontier)
  {
    && k < |frontier| && RouteTargets(g.items[frontier[k]].transition, state) == Err(error)
    && forall j :: 0 <= j < k ==> RouteTargets(g.items[frontier[j]].transition, state).Ok?
  }

  /** A scope with nothing left to run is left through its exit. */
  ghost predicate LeavesScope(g: CompiledGraph, scope: GraphPath, targets: seq<nat>, next: seq<nat>) {
    if targets == [] && scope in g.scopeExits then next == [g.scopeExits[scope]] else next == targets
  }

  lemma SourceAdded(g: CompiledGraph, frontier: seq<nat>, state: State, x: nat)
    requires InGraph(g, frontier) && frontier != []
    ensures var n := |frontier| - 1;
            HasSource(g, frontier, state, x) <==>
              || HasSource(g, frontier[..n], state, x)
              || (RouteTargets(g.items[frontier[n]].transition, state).Ok?
                  && x in RouteTargets(g.items[frontier[n]].transition, state).value)
  {
    hide RouteTargets;
    var n := |frontier| - 1;
    if k :| 0 <= k < n && RouteTargets(g.items[frontier[..n][k]].transition, state).Ok?
            && x in RouteTargets(g.items[frontier[..n][k]].transition, state).value {
      assert frontier[k] == frontier[..n][k];
    }
    if HasSource(g, frontier, state, x) {
      var k :| 0 <= k < |frontier| && RouteTargets(g.items[frontier[k]].transition, state).Ok?
               && x in RouteTargets(g.items[frontier[k]].transition, state).value;
      if k < n { assert frontier[k] == frontier[..n][k]; }
    }
  }

  lemma {:induction false} RoutingMeans(g: CompiledGraph, frontier: seq<nat>, state: State)
    requires InGraph(g, frontier)
    ensures RouteAll(g, frontier, state).Err? ==>
              Misroutes(g, frontier, state, RouteAll(g, frontier, state).error.offset,
                        RouteAll(g, frontier, state).error.error)
    ensures RouteAll(g, frontier, state).Ok? ==>
              && (forall k :: 0 <= k < |frontier| ==> RouteTargets(g.items[frontier[k]].transition, state).Ok?)
              && forall x :: x in RouteAll(g, frontier, state).value <==> HasSource(g, frontier, state, x)
  {
    hide RouteTargets;
    if frontier != [] {
      hide HasSource;
      var n := |frontier| - 1;
      RoutingMeans(g, frontier[..n], state);
      forall k | 0 <= k < n ensures frontier[k] == frontier[..n][k] {}
      forall x: nat
        ensures HasSource(g, frontier, state, x) <==>
                || HasSource(g, frontier[..n], state, x)
                || (RouteTargets(g.items[frontier[n]].transition, state).Ok?
                    && x in RouteTargets(g.items[frontier[n]].transition, state).value)
      {
        SourceAdded(g, frontier, state, x);
      }
    }
  }

  lemma RoutedIsActivated(g: CompiledGraph, frontier: seq<nat>, state: State)
    requires InGraph(g, frontier) && RouteAll(g, frontier, state).Ok?
    ensures Activated(g, frontier, state, SortDedup(RouteAll(g, frontier, state).value))
  {
    hide RouteTargets, HasSource;
    RoutingMeans(g, frontier, state);
    SortDedupSorts(RouteAll(g, frontier, state).value);
  }

  lemma ActivatedOnce(g: CompiledGraph, frontier: seq<nat>, state: State, a: seq<nat>, b: seq<nat>)
    requires InGraph(g, frontier) && Activated(g, frontier, state, a) && Activated(g, frontier, state, b)
    ensures a == b
  {
    AscendingIsDetermined(a, b);
  }

  // ---- entering and leaving scopes ----

  /** Where an entry or an exit leads in this state. */
  ghost predicate LeadsTo(g: CompiledGraph, i: nat, state: State, next: seq<nat>) {
    i < |g.items| &&
    match g.items[i]
    case Node(_, _, _, _) => false
    case EnterSubgraph(_, transition) => RouteTargets(transition, state) == Ok(next)
    case ExitSubgraph(_, mountPath, _) =>
      exists targets ::
        && Activated(g, [i], state, targets)
        && LeavesScope(g, if mountPath == [] then ROOT else mountPath[..|mountPath| - 1], targets, next)
  }

  /** What crossing the item announces. */
  ghost predicate Announces(item: CompiledItem, boundary: SubgraphBoundary) {
    || (item.EnterSubgraph? && boundary == Started(item.graphPath))
    || (item.ExitSubgraph? && boundary == Completed(item.graphPath))
  }

  /** The mount an entry or exit belongs to. */
  ghost predicate MountOf(item: CompiledItem, node: NodePath) {
    (item.EnterSubgraph? && node == item.graphPath) || (item.ExitSubgraph? && node == item.mountPath)
  }

  function Crossed(boundary: SubgraphBoundary, outcome: StepOutcome): StepOutcome {
    if outcome.Advanced? then Advanced(outcome.next, [boundary] + outcome.boundaries) else outcome
  }

  /** From this frontier, after at most n crossings, the super-step ends so: on real
      nodes, counting the nodes it ran; on several items that are not all nodes; or
      in a mount whose router fails. */
  ghost predicate Lands(g: CompiledGraph, p: Position, frontier: seq<nat>, state: State, outcome: StepOutcome, n: nat)
    decreases n
  {
    if !InGraph(g, frontier) then false
    else if |frontier| != 1 || g.items[frontier[0]].Node? then
      if forall k :: 0 <= k < |frontier| ==> g.items[frontier[k]].Node? then
        outcome == Advanced(Position(state, p.steps + |p.frontier|, p.superstep + 1, frontier), [])
      else outcome == Panicking
    else
      || (exists node, error ::
            && MountOf(g.items[frontier[0]], node)
            && RouteTargets(g.items[frontier[0]].transition, state) == Err(error)
            && outcome == StepFailed(RouteFailed(node, p.steps + |p.frontier|, error)))
      || (n > 0 && exists next, inner, boundary ::
            && LeadsTo(g, frontier[0], state, next) && Announces(g.items[frontier[0]], boundary)
            && Lands(g, p, next, state, inner, n - 1) && outcome == Crossed(boundary, inner))
  }

  lemma MoveMeans(g: CompiledGraph, i: nat, state: State)
    requires i < |g.items| && !g.items[i].Node?
    ensures forall next :: StructuralMove(g, g.items[i], state) == Ok(next) <==> LeadsTo(g, i, state, next)
    ensures forall error ::
              StructuralMove(g, g.items[i], state) == Err(error) <==>
              RouteTargets(g.items[i].transition, state) == Err(error)
    ensures Announces(g.items[i], BoundaryOf(g.items[i])) && MountOf(g.items[i], StructuralPath(g.items[i]))
    ensures forall boundary :: Announces(g.items[i], boundary) ==> boundary == BoundaryOf(g.items[i])
    ensures forall node :: MountOf(g.items[i], node) ==> node == StructuralPath(g.items[i])
  {
    hide RouteTargets, Activated;
    if g.items[i].ExitSubgraph? && RouteTargets(g.items[i].transition, state).Ok? {
      var targets := RouteTargets(g.items[i].transition, state).value;
      OneRoutes(g, i, state);
      RoutedIsActivated(g, [i], state);
      forall other | Activated(g, [i], state, other) ensures other == SortDedup(targets) {
        ActivatedOnce(g, [i], state, other, SortDedup(targets));
      }
    } else if g.items[i].ExitSubgraph? {
      OneRoutes(g, i, state);
    }
  }

  lemma OneRoutes(g: CompiledGraph, i: nat, state: State)
    requires i < |g.items|
    ensures RouteTargets(g.items[i].transition, state).Ok? ==>
              RouteAll(g, [i], state) == Ok(RouteTargets(g.items[i].transition, state).value)
    ensures RouteTargets(g.items[i].transition, state).Err? ==> forall targets :: !Activated(g, [i], state, targets)
  {
    hide RouteTargets;
    assert [i][..0] == [] && RouteAll(g, [i][..0], state) == Ok([]);
    if RouteTargets(g.items[i].transition, state).Ok? {
      assert [] + RouteTargets(g.items[i].transition, state).value == RouteTargets(g.items[i].transition, state).value;
    } else {
      assert [i][0] == i;
    }
  }

  lemma ArrivesOnce(g: CompiledGraph, p: Position, i: nat, next: seq<nat>, state: State)
    requires i < |g.items| && !g.items[i].Node? && StructuralMove(g, g.items[i], state) == Ok(next)
    ensures Arrive(g, p, [i], state) == Crossed(BoundaryOf(g.items[i]), Arrive(g, p, next, state))
  {
    hide Settle, StructuralMove;
    MovesOnce(g, i, next, state);
  }

  lemma ArrivesNowhere(g: CompiledGraph, p: Position, frontier: seq<nat>, state: State)
    requires InGraph(g, frontier)
    ensures !IsStructural(g, frontier) ==>
              Arrive(g, p, frontier, state)
              == if RealNodes(g, frontier) then
                   Advanced(Position(state, p.steps + |p.frontier|, p.superstep + 1, frontier), [])
                 else Panicking
    ensures IsStructural(g, frontier) && StructuralMove(g, g.items[frontier[0]], state).Err? ==>
              Arrive(g, p, frontier, state)
              == StepFailed(RouteFailed(StructuralPath(g.items[frontier[0]]), p.steps + |p.frontier|,
                                        StructuralMove(g, g.items[frontier[0]], state).error))
  {
    hide StructuralMove;
  }

  /** There is at most one way to land, the one the runtime takes. */
  lemma {:induction false} LandsOnce(g: CompiledGraph, p: Position, frontier: seq<nat>, state: State,
                                     outcome: StepOutcome, n: nat)
    requires Lands(g, p, frontier, state, outcome, n)
    ensures Arrive(g, p, frontier, state) == outcome
    decreases n
  {
    hide StructuralMove, LeadsTo, Announces, MountOf, Arrive, RouteTargets;
    ArrivesNowhere(g, p, frontier, state);
    if IsStructural(g, frontier) {
      var i := frontier[0];
      assert frontier == [i];
      MoveMeans(g, i, state);
      if StructuralMove(g, g.items[i], state).Ok? {
        var next, inner, boundary :|
          LeadsTo(g, i, state, next) && Announces(g.items[i], boundary)
          && Lands(g, p, next, state, inner, n - 1) && outcome == Crossed(boundary, inner);
        LandsOnce(g, p, next, state, inner, n - 1);
        ArrivesOnce(g, p, i, next, state);
      }
    }
  }

  /** The runtime lands unless normalization never ends. */
  lemma {:induction false} SettlingLands(g: CompiledGraph, p: Position, frontier: seq<nat>, state: State, fuel: nat)
    requires WellFormed(g) && InGraph(g, frontier) && !Normalize(g, frontier, state, fuel).Unsettled?
    ensures Lands(g, p, frontier, state, Arrive(g, p, frontier, state), fuel)
    decreases fuel
  {
    hide WellFormed, StructuralMove, LeadsTo, Announces, MountOf, Arrive, RouteTargets;
    ArrivesNowhere(g, p, frontier, state);
    if IsStructural(g, frontier) {
      var i := frontier[0];
      assert frontier == [i];
      MoveMeans(g, i, state);
      if StructuralMove(g, g.items[i], state).Ok? {
        var next := StructuralMove(g, g.items[i], state).value;
        MoveStaysInGraph(g, i, state);
        SettlingLands(g, p, next, state, fuel - 1);
        ArrivesOnce(g, p, i, next, state);
      }
    }
  }

  lemma MoveStaysInGraph(g: CompiledGraph, i: nat, state: State)
    requires WellFormed(g) && i < |g.items| && !g.items[i].Node? && StructuralMove(g, g.items[i], state).Ok?
    ensures InGraph(g, StructuralMove(g, g.items[i], state).value)
  {
    hide WellFormed, StructuralMove, Candidate;
    MoveKeepsCandidate(g, i, state);
    CandidateIndices(g, StructuralMove(g, g.items[i], state).value);
  }

  /** Entering a graph is landing from its entry, before anything has run. */
  lemma EntryLands(g: CompiledGraph, initial: State) returns (n: nat)
    requires WellFormed(g)
    ensures var entered := Settle(g, TargetIndices(g.entry), initial);
            entered.Settled? ==>
              Lands(g, Position(initial, 0, 0, []), TargetIndices(g.entry), initial,
                    Advanced(Position(initial, 0, 1, entered.frontier), entered.boundaries), n)
  {
    n := |g.items| + 1;
    EntryFrontierIsOk(g, initial);
    EntryInGraph(g);
    hide WellFormed, Normalize, Harmless, Candidate;
    if Settle(g, TargetIndices(g.entry), initial).Settled? {
      SettlingLands(g, Position(initial, 0, 0, []), TargetIndices(g.entry), initial, n);
    }
  }

  lemma EntryInGraph(g: CompiledGraph)
    requires WellFormed(g)
    ensures InGraph(g, TargetIndices(g.entry))
  {
  }

  // ---- the super-step ----

  /** Where the committed state leads. */
  ghost predicate MovesOn(g: CompiledGraph, p: Position, state: State, outcome: StepOutcome)
    requires InGraph(g, p.frontier) && p.frontier != []
  {
    || (exists k: nat, error ::
          && Misroutes(g, p.frontier, state, k, error)
          && outcome == StepFailed(RouteFailed(PathAt(g, p.frontier[k]), p.steps + k + 1, error)))
    || (exists targets, next, n: nat ::
          && Activated(g, p.frontier, state, targets)
          && LeavesScope(g, g.items[p.frontier[0]].graphPath, targets, next)
          && Lands(g, p, next, state, outcome, n))
  }

  /** The super-step ends so. */
  ghost predicate Steps(g: CompiledGraph, ops: StateOps, mode: CheckpointMode, p: Position, resume: Option<Resume>,
                        order: seq<nat>, outcome: StepOutcome)
    requires InGraph(g, p.frontier) && p.frontier != [] && Offsets(order, |p.frontier|)
  {
    || (exists payload :: Suspends(g, mode, p, resume, payload) && outcome == Suspended(payload))
    || (exists error :: Fails(g, ops, mode, p, resume, order, error) && outcome == StepFailed(error))
    || (exists state :: Commits(g, ops, p, resume, state) && MovesOn(g, p, state, outcome))
  }

  lemma MisroutesOnce(g: CompiledGraph, frontier: seq<nat>, state: State)
    requires InGraph(g, frontier)
    ensures RouteAll(g, frontier, state).Ok? ==> forall k: nat, error :: !Misroutes(g, frontier, state, k, error)
    ensures RouteAll(g, frontier, state).Err? ==>
              && (forall k: nat, error :: Misroutes(g, frontier, state, k, error) ==>
                    RouteAll(g, frontier, state) == Err(RouteFault(k, error)))
              && forall targets :: !Activated(g, frontier, state, targets)
  {
    hide RouteTargets, HasSource;
    RoutingMeans(g, frontier, state);
  }

  /** Routing on: what the runtime does after a commit is what `MovesOn` says. */
  lemma RouteOnMeans(g: CompiledGraph, p: Position, state: State, outcome: StepOutcome)
    requires WellFormed(g) && FrontierOk(g, p.frontier) && p.frontier != [] && !outcome.Spinning?
    ensures RealNodes(g, p.frontier)
    ensures RouteOn(g, p, state) == outcome <==> MovesOn(g, p, state, outcome)
  {
    hide WellFormed, RouteAll, Arrive, NextFrontier, Activated, Lands, Misroutes, Candidate, LeavesScope;
    RoutingMeans(g, p.frontier, state);
    MisroutesOnce(g, p.frontier, state);
    RouteAllOffsets(g, p.frontier, state);
    if RouteAll(g, p.frontier, state).Ok? {
      LandsWhereRouted(g, p, state, outcome);
    } else {
      var fault := RouteAll(g, p.frontier, state).error;
      assert PathAt(g, p.frontier[fault.offset]) == g.items[p.frontier[fault.offset]].path;
    }
  }

  lemma LandsWhereRouted(g: CompiledGraph, p: Position, state: State, outcome: StepOutcome)
    requires WellFormed(g) && FrontierOk(g, p.frontier) && p.frontier != [] && !outcome.Spinning?
    requires RouteAll(g, p.frontier, state).Ok?
    ensures RealNodes(g, p.frontier)
    ensures RouteOn(g, p, state) == outcome <==> MovesOn(g, p, state, outcome)
  {
    hide WellFormed, RouteAll, Arrive, Activated, Lands, Misroutes, Candidate, Settle;
    var all, scope := RouteAll(g, p.frontier, state).value, g.items[p.frontier[0]].graphPath;
    var next := NextFrontier(g, scope, all);
    RoutedIsActivated(g, p.frontier, state);
    MisroutesOnce(g, p.frontier, state);
    assert LeavesScope(g, scope, SortDedup(all), next);
    RoutedIsCandidate(g, p.frontier, state);
    CandidateIndices(g, next);
    if Arrive(g, p, next, state) == outcome {
      ArrivalSettles(g, p, next, state);
      SettlingLands(g, p, next, state, |g.items| + 1);
    }
    if MovesOn(g, p, state, outcome) {
      var targets, other, n: nat :|
        Activated(g, p.frontier, state, targets) && LeavesScope(g, scope, targets, other)
        && Lands(g, p, other, state, outcome, n);
      ActivatedOnce(g, p.frontier, state, targets, SortDedup(all));
      LandsOnce(g, p, other, state, outcome, n);
    }
  }

  lemma ArrivalSettles(g: CompiledGraph, p: Position, frontier: seq<nat>, state: State)
    ensures !Arrive(g, p, frontier, state).Spinning? ==> !Normalize(g, frontier, state, |g.items| + 1).Unsettled?
  {
    hide Normalize;
  }

  /** The runtime's super-step is the one described here, and there is only one:
      every outcome but an endless normalization, in both directions. */
  lemma SuperstepMeans(g: CompiledGraph, ops: StateOps, mode: CheckpointMode, p: Position, resume: Option<Resume>,
                       order: seq<nat>, outcome: StepOutcome)
    requires WellFormed(g) && FrontierOk(g, p.frontier) && p.frontier != [] && IsCompletionOrder(order, |p.frontier|)
    requires !outcome.Spinning?
    ensures RealNodes(g, p.frontier) && Offsets(order, |p.frontier|)
    ensures Superstep(g, ops, mode, p, resume, order) == outcome <==>
            Steps(g, ops, mode, p, resume, order, outcome)
  {
    hide WellFormed, CommitFrontier, RouteOn, Commits, Fails, Suspends, MovesOn, IsCompletionOrder, Candidate;
    OrderIsOffsets(order, |p.frontier|);
    CommitMeans(g, ops, mode, p, resume, order);
    if CommitFrontier(g, ops, mode, p, resume, order).Committed? {
      RouteOnMeans(g, p, CommitFrontier(g, ops, mode, p, resume, order).state, outcome);
    }
  }
}
