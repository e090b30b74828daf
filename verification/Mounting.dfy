/** Mounting a compiled child changes nothing about how it runs
    (crates/group-agent-core/src/graph.rs:397-417, 905-954;
     crates/group-agent-core/src/runtime.rs:783-828, 900-974). */
module Mounting {
  import opened Base
  import opened Domain
  import opened Paths
  import opened Transitions
  import opened Compiled
  import opened Runtime
  import opened Frontiers
  import opened Settling

  /** A child frontier seen from the parent: the same nodes in their new slots,
      or, when the child is done, the exit of its scope. */
  function OnMount(g: CompiledGraph, c: CompiledGraph, base: nat, prefix: GraphPath, frontier: seq<nat>): seq<nat>
    requires InGraph(c, frontier) && prefix in g.scopeExits
  {
    if frontier == [] then [g.scopeExits[prefix]] else Lift(frontier, Mapping(base, |c.items|))
  }

  function PrefixBoundary(b: SubgraphBoundary, prefix: GraphPath): SubgraphBoundary {
    match b
    case Started(path) => Started(Prefixed(path, prefix))
    case Completed(path) => Completed(Prefixed(path, prefix))
  }

  function PrefixBoundaries(bs: seq<SubgraphBoundary>, prefix: GraphPath): (r: seq<SubgraphBoundary>)
    ensures |r| == |bs|
  {
    if bs == [] then [] else [PrefixBoundary(bs[0], prefix)] + PrefixBoundaries(bs[1..], prefix)
  }

  lemma {:induction false} MoreFuel(g: CompiledGraph, frontier: seq<nat>, state: State, fuel: nat, more: nat)
    requires fuel <= more && !Normalize(g, frontier, state, fuel).Unsettled?
    ensures Normalize(g, frontier, state, more) == Normalize(g, frontier, state, fuel)
    decreases fuel
  {
    hide StructuralMove;
    if IsStructural(g, frontier) && StructuralMove(g, g.items[frontier[0]], state).Ok? {
      MoreFuel(g, StructuralMove(g, g.items[frontier[0]], state).value, state, fuel - 1, more - 1);
    }
  }

  /** Any fuel past the item count gives the same answer. */
  lemma EnoughFuel(g: CompiledGraph, frontier: seq<nat>, state: State, fuel: nat)
    requires fuel > |g.items|
    ensures Normalize(g, frontier, state, fuel) == Settle(g, frontier, state)
  {
    if Settle(g, frontier, state).Unsettled? {
      UnsettledNeverSettles(g, frontier, state);
    } else {
      MoreFuel(g, frontier, state, |g.items| + 1, fuel);
    }
  }

  /** One structural move, and then the rest. */
  lemma MovesOnce(g: CompiledGraph, i: nat, next: seq<nat>, state: State)
    requires IsStructural(g, [i]) && StructuralMove(g, g.items[i], state) == Ok(next)
    ensures Settle(g, [i], state) == Crossing([BoundaryOf(g.items[i])], Settle(g, next, state))
  {
    hide StructuralMove;
    EnoughFuel(g, [i], state, |g.items| + 2);
  }

  // ---- one item ----

  /** c is mounted in g: a block under a namespace, entered through `enter`. */
  ghost predicate Mounted(g: CompiledGraph, c: CompiledGraph, base: nat, prefix: GraphPath, enter: nat) {
    && WellFormed(g) && WellFormed(c) && Embeds(g, c, base, prefix)
    && enter < |g.items| && g.items[enter].EnterSubgraph? && g.items[enter].graphPath == prefix
    && g.items[enter].transition
       == Fixed(Some(if c.entry.Some? then base + c.entry.value else g.scopeExits[prefix]))
  }

  lemma ScopeOf(g: CompiledGraph, c: CompiledGraph, base: nat, prefix: GraphPath)
    requires Embeds(g, c, base, prefix)
    ensures prefix != ROOT && prefix in g.scopeExits && base + |c.items| <= |g.items|
  {
  }

  /** Leaving a scope of the child, or the child itself, is seen by the parent as
      leaving the prefixed scope. */
  lemma NextFrontierOnMount(g: CompiledGraph, c: CompiledGraph, base: nat, prefix: GraphPath, scope: GraphPath,
                            targets: seq<nat>)
    requires WellFormed(c) && Embeds(g, c, base, prefix)
    requires Owned(scope, c.scopeExits) && InBounds(targets, |c.items|)
    ensures prefix in g.scopeExits && InGraph(c, NextFrontier(c, scope, targets))
    ensures NextFrontier(g, Prefixed(scope, prefix), Lift(targets, Mapping(base, |c.items|)))
            == OnMount(g, c, base, prefix, NextFrontier(c, scope, targets))
  {
    hide MountsRunAlone, ItemOk, NodePathsExact;
    var m := Mapping(base, |c.items|);
    SortDedupCommutesWithLift(targets, m);
    SortDedupBounds(targets, |c.items|);
    if SortDedup(targets) == [] {
      if scope == ROOT {
        assert Prefixed(scope, prefix) == prefix;
      } else {
        ScopeExitShape(c, scope);
        assert g.scopeExits[Prefixed(scope, prefix)] == base + c.scopeExits[scope];
      }
    }
  }

  lemma MoveOnMount(g: CompiledGraph, c: CompiledGraph, base: nat, prefix: GraphPath, i: nat, state: State)
    requires WellFormed(c) && Embeds(g, c, base, prefix) && i < |c.items| && !c.items[i].Node?
    ensures base + i < |g.items| && !g.items[base + i].Node? && prefix in g.scopeExits
    ensures StructuralPath(g.items[base + i]) == Prefixed(StructuralPath(c.items[i]), prefix)
    ensures BoundaryOf(g.items[base + i]) == PrefixBoundary(BoundaryOf(c.items[i]), prefix)
    ensures match StructuralMove(c, c.items[i], state)
            case Err(error) => StructuralMove(g, g.items[base + i], state) == Err(error)
            case Ok(next) =>
              InGraph(c, next) && (c.items[i].EnterSubgraph? ==> next != [])
              && StructuralMove(g, g.items[base + i], state) == Ok(OnMount(g, c, base, prefix, next))
  {
    ItemOkOf(c, i);
    ScopeOf(g, c, base, prefix);
    hide WellFormed, Embeds, NextFrontier;
    var m := Mapping(base, |c.items|);
    var item := c.items[i];
    BlockItem(g, c, base, prefix, i);
    MappingAscends(base, |c.items|);
    RouteCommutesWithRemap(item.transition, m, state);
    if RouteTargets(item.transition, state).Ok? {
      var targets := RouteTargets(item.transition, state).value;
      if item.ExitSubgraph? {
        var scope := ParentOf(item.mountPath);
        PrefixedKeepsStructure(item.mountPath, prefix);
        NextFrontierOnMount(g, c, base, prefix, scope, targets);
      }
    }
  }

  lemma StructureOnMount(g: CompiledGraph, c: CompiledGraph, base: nat, prefix: GraphPath, frontier: seq<nat>)
    requires Embeds(g, c, base, prefix) && InGraph(c, frontier) && frontier != []
    ensures prefix in g.scopeExits
    ensures IsStructural(g, OnMount(g, c, base, prefix, frontier)) == IsStructural(c, frontier)
    ensures IsStructural(c, frontier) ==> OnMount(g, c, base, prefix, frontier) == [base + frontier[0]]
  {
    ScopeOf(g, c, base, prefix);
    hide Embeds;
    BlockItem(g, c, base, prefix, frontier[0]);
  }

  // ---- normalization ----

  ghost predicate MovesOnMount(g: CompiledGraph, c: CompiledGraph, base: nat, prefix: GraphPath, frontier: seq<nat>,
                               state: State, child: Normalized, fuel: nat, more: nat)
    requires prefix in g.scopeExits && InGraph(c, frontier)
  {
    var lifted := OnMount(g, c, base, prefix, frontier);
    match child
    case Settled(settled, bs) =>
      && InGraph(c, settled) && |bs| <= fuel
      && Normalize(g, lifted, state, |bs| + more)
         == Crossing(PrefixBoundaries(bs, prefix), Normalize(g, OnMount(g, c, base, prefix, settled), state, more))
    case Misrouted(node, error) => Normalize(g, lifted, state, fuel) == Misrouted(Prefixed(node, prefix), error)
    case Unsettled => Normalize(g, lifted, state, fuel).Unsettled?
  }

  /** One structural move of the child, made by the parent. */
  lemma MovesOneMore(g: CompiledGraph, c: CompiledGraph, base: nat, prefix: GraphPath, i: nat, next: seq<nat>,
                     state: State, fuel: nat, more: nat)
    requires Embeds(g, c, base, prefix) && WellFormed(c) && i < |c.items| && !c.items[i].Node?
    requires StructuralMove(c, c.items[i], state) == Ok(next) && InGraph(c, next) && prefix in g.scopeExits
    requires MovesOnMount(g, c, base, prefix, next, state, Normalize(c, next, state, fuel), fuel, more)
    ensures MovesOnMount(g, c, base, prefix, [i], state, Normalize(c, [i], state, fuel + 1), fuel + 1, more)
  {
    hide WellFormed, Embeds, StructuralMove, Prefixed, Normalize, OnMount, EmbedItem;
    StructureOnMount(g, c, base, prefix, [i]);
    MoveOnMount(g, c, base, prefix, i, state);
    NormalizeStep(c, [i], state, fuel);
    NormalizeStep(g, [base + i], state, fuel);
    match Normalize(c, next, state, fuel)
    case Settled(settled, bs) =>
      var boundary := BoundaryOf(c.items[i]);
      assert ([boundary] + bs)[1..] == bs;
      NormalizeStep(g, [base + i], state, |bs| + more);
      CrossingJoins([PrefixBoundary(boundary, prefix)], PrefixBoundaries(bs, prefix),
                    Normalize(g, OnMount(g, c, base, prefix, settled), state, more));
    case Misrouted(_, _) =>
    case Unsettled =>
  }

  /** Nothing to move. */
  lemma RestsOnMount(g: CompiledGraph, c: CompiledGraph, base: nat, prefix: GraphPath, frontier: seq<nat>,
                     state: State, fuel: nat, more: nat)
    requires InGraph(c, frontier) && prefix in g.scopeExits && !IsStructural(c, frontier)
    ensures MovesOnMount(g, c, base, prefix, frontier, state, Normalize(c, frontier, state, fuel), fuel, more)
  {
    hide OnMount, StructuralMove, IsStructural, Prefixed;
    NormalizeRests(c, frontier, state, fuel);
    CrossingJoins([], [], Normalize(g, OnMount(g, c, base, prefix, frontier), state, more));
  }

  /** No move left, or a move that fails. */
  lemma StuckOnMount(g: CompiledGraph, c: CompiledGraph, base: nat, prefix: GraphPath, i: nat, state: State,
                     fuel: nat, more: nat)
    requires Embeds(g, c, base, prefix) && WellFormed(c) && i < |c.items| && !c.items[i].Node?
    requires fuel == 0 || StructuralMove(c, c.items[i], state).Err?
    ensures prefix in g.scopeExits
    ensures MovesOnMount(g, c, base, prefix, [i], state, Normalize(c, [i], state, fuel), fuel, more)
  {
    hide WellFormed, Embeds, StructuralMove, Prefixed, Normalize, OnMount, EmbedItem;
    StructureOnMount(g, c, base, prefix, [i]);
    MoveOnMount(g, c, base, prefix, i, state);
    if fuel == 0 {
      NormalizeRests(c, [i], state, 0);
      NormalizeRests(g, [base + i], state, 0);
    } else {
      NormalizeStep(c, [i], state, fuel - 1);
      NormalizeStep(g, [base + i], state, fuel - 1);
    }
  }

  /** The parent makes the child's structural moves, and goes on from where the
      child settles. */
  lemma {:induction false} NormalizeOnMount(g: CompiledGraph, c: CompiledGraph, base: nat, prefix: GraphPath,
                                            frontier: seq<nat>, state: State, fuel: nat, more: nat)
    requires WellFormed(c) && Embeds(g, c, base, prefix) && InGraph(c, frontier)
    ensures prefix in g.scopeExits
    ensures MovesOnMount(g, c, base, prefix, frontier, state, Normalize(c, frontier, state, fuel), fuel, more)
    decreases fuel
  {
    hide WellFormed, Embeds, StructuralMove, Prefixed, Normalize, OnMount, EmbedItem, MovesOnMount;
    ScopeOf(g, c, base, prefix);
    if !IsStructural(c, frontier) {
      RestsOnMount(g, c, base, prefix, frontier, state, fuel, more);
    } else {
      var i := frontier[0];
      assert frontier == [i];
      if fuel == 0 || StructuralMove(c, c.items[i], state).Err? {
        StuckOnMount(g, c, base, prefix, i, state, fuel, more);
      } else {
        var next := StructuralMove(c, c.items[i], state).value;
        MoveStaysInChild(g, c, base, prefix, i, state);
        NormalizeOnMount(g, c, base, prefix, next, state, fuel - 1, more);
        MovesOneMore(g, c, base, prefix, i, next, state, fuel - 1, more);
      }
    }
  }

  lemma MoveStaysInChild(g: CompiledGraph, c: CompiledGraph, base: nat, prefix: GraphPath, i: nat, state: State)
    requires WellFormed(c) && Embeds(g, c, base, prefix) && i < |c.items| && !c.items[i].Node?
    ensures StructuralMove(c, c.items[i], state).Ok? ==> InGraph(c, StructuralMove(c, c.items[i], state).value)
  {
    hide WellFormed, Embeds, StructuralMove;
    MoveOnMount(g, c, base, prefix, i, state);
  }

  ghost predicate SettlesOnMount(g: CompiledGraph, c: CompiledGraph, base: nat, prefix: GraphPath,
                                 frontier: seq<nat>, state: State, child: Normalized)
    requires prefix in g.scopeExits && InGraph(c, frontier)
  {
    var parent := Settle(g, OnMount(g, c, base, prefix, frontier), state);
    match child
    case Settled(settled, bs) =>
      && InGraph(c, settled)
      && parent == Crossing(PrefixBoundaries(bs, prefix), Settle(g, OnMount(g, c, base, prefix, settled), state))
    case Misrouted(node, error) => parent == Misrouted(Prefixed(node, prefix), error)
    case Unsettled => parent.Unsettled?
  }

  /** Where the child settles, the parent carries on. */
  lemma SettleOnMount(g: CompiledGraph, c: CompiledGraph, base: nat, prefix: GraphPath, frontier: seq<nat>,
                      state: State)
    requires WellFormed(c) && Embeds(g, c, base, prefix) && InGraph(c, frontier)
    ensures prefix in g.scopeExits
    ensures SettlesOnMount(g, c, base, prefix, frontier, state, Settle(c, frontier, state))
  {
    hide WellFormed, Embeds, Normalize, OnMount, EmbedItem, Prefixed;
    ScopeOf(g, c, base, prefix);
    var enough := |g.items| + 1;
    var lifted := OnMount(g, c, base, prefix, frontier);
    NormalizeOnMount(g, c, base, prefix, frontier, state, |c.items| + 1, enough);
    match Settle(c, frontier, state)
    case Settled(settled, bs) => EnoughFuel(g, lifted, state, |bs| + enough);
    case Misrouted(_, _) => EnoughChildFuel(g, lifted, state, |c.items| + 1);
    case Unsettled =>
      NormalizeOnMount(g, c, base, prefix, frontier, state, enough, 0);
      EnoughFuel(c, frontier, state, enough);
  }

  lemma EnoughChildFuel(g: CompiledGraph, frontier: seq<nat>, state: State, fuel: nat)
    requires fuel <= |g.items| + 1 && !Normalize(g, frontier, state, fuel).Unsettled?
    ensures Settle(g, frontier, state) == Normalize(g, frontier, state, fuel)
  {
    MoreFuel(g, frontier, state, fuel, |g.items| + 1);
  }

  // ---- routing ----

  lemma {:induction false} RouteAllOnMount(g: CompiledGraph, c: CompiledGraph, base: nat, prefix: GraphPath,
                                           frontier: seq<nat>, state: State)
    requires WellFormed(c) && Embeds(g, c, base, prefix) && InGraph(c, frontier)
    ensures InGraph(g, Lift(frontier, Mapping(base, |c.items|)))
    ensures match RouteAll(c, frontier, state)
            case Err(fault) => RouteAll(g, Lift(frontier, Mapping(base, |c.items|)), state) == Err(fault)
            case Ok(targets) =>
              && InBounds(targets, |c.items|)
              && RouteAll(g, Lift(frontier, Mapping(base, |c.items|)), state)
                 == Ok(Lift(targets, Mapping(base, |c.items|)))
  {
    hide WellFormed, Embeds, RouteTargets, EmbedItem, Prefixed;
    ScopeOf(g, c, base, prefix);
    var m := Mapping(base, |c.items|);
    if frontier != [] {
      var n := |frontier| - 1;
      var earlier, last := frontier[..n], frontier[n];
      RouteAllOnMount(g, c, base, prefix, earlier, state);
      assert Lift(frontier, m)[..n] == Lift(earlier, m);
      RoutesOnMount(g, c, base, prefix, last, state);
      if RouteAll(c, earlier, state).Ok? && RouteTargets(c.items[last].transition, state).Ok? {
        LiftConcat(RouteAll(c, earlier, state).value, RouteTargets(c.items[last].transition, state).value, m);
      }
    }
  }

  lemma RoutesOnMount(g: CompiledGraph, c: CompiledGraph, base: nat, prefix: GraphPath, i: nat, state: State)
    requires WellFormed(c) && Embeds(g, c, base, prefix) && i < |c.items|
    ensures base + i < |g.items|
    ensures var child := RouteTargets(c.items[i].transition, state);
            var parent := RouteTargets(g.items[base + i].transition, state);
            && (child.Err? ==> parent == child)
            && (child.Ok? ==> InBounds(child.value, |c.items|)
                              && parent == Ok(Lift(child.value, Mapping(base, |c.items|))))
  {
    hide WellFormed, Embeds, RouteTargets, EmbedItem, Prefixed;
    var m := Mapping(base, |c.items|);
    ItemOkOf(c, i);
    BlockItem(g, c, base, prefix, i);
    EmbeddedItemTransition(c.items[i], prefix, m);
    MappingAscends(base, |c.items|);
    RouteCommutesWithRemap(c.items[i].transition, m, state);
  }

  lemma EmbeddedItemTransition(item: CompiledItem, prefix: GraphPath, mapping: seq<nat>)
    requires WithinRange(item.transition, |mapping|)
    ensures EmbedItem(item, prefix, mapping).transition == Remap(item.transition, mapping)
  {
  }

  // ---- a super-step ----

  /** Nodes that look at the state and the resume value, not at their path or
      step number. */
  ghost predicate StateOnly(kind: NodeKind) {
    forall state: State, a: NodeContext, b: NodeContext :: a.resume == b.resume ==>
      RunNode(kind, state, a) == RunNode(kind, state, b)
  }

  ghost predicate StateOnlyNodes(c: CompiledGraph) {
    forall i :: 0 <= i < |c.items| && c.items[i].Node? ==> StateOnly(c.items[i].kind)
  }

  /** The same update as the node under the mount reports it. */
  function PrefixUpdates(updates: seq<NodeUpdate>, prefix: GraphPath): (r: seq<NodeUpdate>)
    ensures |r| == |updates|
    ensures forall k :: 0 <= k < |r| ==> r[k] == NodeUpdate(Prefixed(updates[k].path, prefix), updates[k].update)
  {
    seq(|updates|, k requires 0 <= k < |updates| => NodeUpdate(Prefixed(updates[k].path, prefix), updates[k].update))
  }

  /** A reducer to which it is one whether all its updates come from the child's
      nodes or from the same nodes under this mount. */
  ghost predicate MountBlind(ops: StateOps, prefix: GraphPath) {
    forall state: State, batch: seq<NodeUpdate> ::
      ops.applyBatch(state, PrefixUpdates(batch, prefix)) == ops.applyBatch(state, batch)
  }

  function MountPosition(c: CompiledGraph, base: nat, steps: nat, supersteps: nat, p: Position): Position
    requires InGraph(c, p.frontier)
  {
    Position(p.state, p.steps + steps, p.superstep + supersteps, Lift(p.frontier, Mapping(base, |c.items|)))
  }

  function PrefixPaths(paths: seq<NodePath>, prefix: GraphPath): (r: seq<NodePath>)
    ensures |r| == |paths|
    ensures forall k :: 0 <= k < |r| ==> r[k] == Prefixed(paths[k], prefix)
  {
    seq(|paths|, k requires 0 <= k < |paths| => Prefixed(paths[k], prefix))
  }

  /** A child error as the parent reports it: prefixed, with the parent's count. */
  function MountError(e: RunError, prefix: GraphPath, steps: nat): RunError {
    match e
    case MaxStepsExceeded(max, node, step) => MaxStepsExceeded(max, Prefixed(node, prefix), step + steps)
    case NodeFailed(node, step, cause) => NodeFailed(Prefixed(node, prefix), step + steps, cause)
    case StateUpdateFailed(node, step, cause) => StateUpdateFailed(Prefixed(node, prefix), step + steps, cause)
    case StateBatchUpdateFailed(nodes, step, cause) =>
      StateBatchUpdateFailed(PrefixPaths(nodes, prefix), step + steps, cause)
    case RouteFailed(node, step, error) => RouteFailed(Prefixed(node, prefix), step + steps, error)
    case InterruptRequiresCheckpoint(node, step) => InterruptRequiresCheckpoint(Prefixed(node, prefix), step + steps)
    case UnsupportedParallelInterrupt(node, step) => UnsupportedParallelInterrupt(Prefixed(node, prefix), step + steps)
    case ReplayInterruptUnsupported(node, step) => ReplayInterruptUnsupported(Prefixed(node, prefix), step + steps)
  }

  function MountResume(resume: Option<Resume>, base: nat): Option<Resume> {
    if resume.Some? then Some(Resume(base + resume.value.node, resume.value.value)) else None
  }

  lemma NodeOnMount(g: CompiledGraph, c: CompiledGraph, base: nat, prefix: GraphPath, p: Position,
                    resume: Option<Resume>, steps: nat, supersteps: nat, k: nat)
    requires WellFormed(c) && Embeds(g, c, base, prefix) && StateOnlyNodes(c)
    requires RealNodes(c, p.frontier) && k < |p.frontier|
    ensures RealNodes(g, MountPosition(c, base, steps, supersteps, p).frontier)
    ensures var q := MountPosition(c, base, steps, supersteps, p);
            && g.items[q.frontier[k]].path == Prefixed(c.items[p.frontier[k]].path, prefix)
            && g.items[q.frontier[k]].graphPath == Prefixed(c.items[p.frontier[k]].graphPath, prefix)
            && NodeResult(g, q, MountResume(resume, base), k) == NodeResult(c, p, resume, k)
  {
    RealOnMount(g, c, base, prefix, p.frontier);
    hide WellFormed, Embeds, RunNode;
    var i := p.frontier[k];
    BlockItem(g, c, base, prefix, i);
    assert StateOnly(c.items[i].kind);
  }

  lemma RealOnMount(g: CompiledGraph, c: CompiledGraph, base: nat, prefix: GraphPath, frontier: seq<nat>)
    requires Embeds(g, c, base, prefix) && RealNodes(c, frontier)
    ensures RealNodes(g, Lift(frontier, Mapping(base, |c.items|)))
  {
    hide Embeds;
    forall k | 0 <= k < |frontier|
      ensures base + frontier[k] < |g.items| && g.items[base + frontier[k]].Node?
    {
      BlockItem(g, c, base, prefix, frontier[k]);
    }
  }

  function MountFault(fault: Option<RunError>, prefix: GraphPath, steps: nat): Option<RunError> {
    if fault.Some? then Some(MountError(fault.value, prefix, steps)) else None
  }

  lemma CompletionFaultOnMount(g: CompiledGraph, c: CompiledGraph, base: nat, prefix: GraphPath,
                               mode: CheckpointMode, p: Position, resume: Option<Resume>,
                               steps: nat, supersteps: nat, offset: nat)
    requires WellFormed(c) && Embeds(g, c, base, prefix) && StateOnlyNodes(c)
    requires RealNodes(c, p.frontier) && offset < |p.frontier|
    ensures RealNodes(g, MountPosition(c, base, steps, supersteps, p).frontier)
    ensures CompletionFault(g, mode, MountPosition(c, base, steps, supersteps, p), MountResume(resume, base), offset)
            == MountFault(CompletionFault(c, mode, p, resume, offset), prefix, steps)
  {
    RealOnMount(g, c, base, prefix, p.frontier);
    hide WellFormed, Embeds, NodeResult, StateOnlyNodes;
    NodeOnMount(g, c, base, prefix, p, resume, steps, supersteps, offset);
  }

  lemma {:induction false} ParallelFaultOnMount(g: CompiledGraph, c: CompiledGraph, base: nat, prefix: GraphPath,
                                                mode: CheckpointMode, p: Position, resume: Option<Resume>,
                                                steps: nat, supersteps: nat, order: seq<nat>)
    requires WellFormed(c) && Embeds(g, c, base, prefix) && StateOnlyNodes(c)
    requires RealNodes(c, p.frontier) && Offsets(order, |p.frontier|)
    ensures RealNodes(g, MountPosition(c, base, steps, supersteps, p).frontier)
    ensures ParallelFault(g, mode, MountPosition(c, base, steps, supersteps, p), MountResume(resume, base), order)
            == MountFault(ParallelFault(c, mode, p, resume, order), prefix, steps)
  {
    RealOnMount(g, c, base, prefix, p.frontier);
    hide WellFormed, Embeds, CompletionFault, StateOnlyNodes, MountError;
    if order != [] {
      CompletionFaultOnMount(g, c, base, prefix, mode, p, resume, steps, supersteps, order[0]);
      ParallelFaultOnMount(g, c, base, prefix, mode, p, resume, steps, supersteps, order[1..]);
    }
  }

  lemma CommitOneOnMount(g: CompiledGraph, c: CompiledGraph, base: nat, prefix: GraphPath, ops: StateOps,
                         mode: CheckpointMode, p: Position, resume: Option<Resume>, steps: nat, supersteps: nat)
    requires WellFormed(c) && Embeds(g, c, base, prefix) && StateOnlyNodes(c)
    requires RealNodes(c, p.frontier) && |p.frontier| == 1
    ensures RealNodes(g, MountPosition(c, base, steps, supersteps, p).frontier)
    ensures CommitOne(g, ops, mode, MountPosition(c, base, steps, supersteps, p), MountResume(resume, base))
            == MountCommit(CommitOne(c, ops, mode, p, resume), prefix, steps)
  {
    hide WellFormed, Embeds, NodeResult, StateOnlyNodes;
    NodeOnMount(g, c, base, prefix, p, resume, steps, supersteps, 0);
  }

  function MountCommit(commit: Commit, prefix: GraphPath, steps: nat): Commit {
    if commit.Rejected? then Rejected(MountError(commit.error, prefix, steps)) else commit
  }

  lemma CommitManyOnMount(g: CompiledGraph, c: CompiledGraph, base: nat, prefix: GraphPath, ops: StateOps,
                          mode: CheckpointMode, p: Position, resume: Option<Resume>, steps: nat, supersteps: nat,
                          order: seq<nat>)
    requires WellFormed(c) && Embeds(g, c, base, prefix) && StateOnlyNodes(c) && MountBlind(ops, prefix)
    requires RealNodes(c, p.frontier) && IsCompletionOrder(order, |p.frontier|)
    ensures RealNodes(g, MountPosition(c, base, steps, supersteps, p).frontier)
    ensures CommitMany(g, ops, mode, MountPosition(c, base, steps, supersteps, p), MountResume(resume, base), order)
            == MountCommit(CommitMany(c, ops, mode, p, resume, order), prefix, steps)
  {
    hide *;
    RealPosition(g, c, base, prefix, steps, supersteps, p);
    var q, resume' := MountPosition(c, base, steps, supersteps, p), MountResume(resume, base);
    SameWidth(c, base, steps, supersteps, p);
    CommitManyIs(c, ops, mode, p, resume, order);
    ParallelFaultOnMount(g, c, base, prefix, mode, p, resume, steps, supersteps, order);
    CommitManyIs(g, ops, mode, q, resume', order);
    MountCommitIs(prefix, steps);
    if ParallelFault(c, mode, p, resume, order).None? {
      BatchOnMount(g, c, base, prefix, ops, p, resume, steps, supersteps);
    }
  }

  lemma RealPosition(g: CompiledGraph, c: CompiledGraph, base: nat, prefix: GraphPath, steps: nat, supersteps: nat,
                     p: Position)
    requires Embeds(g, c, base, prefix) && RealNodes(c, p.frontier)
    ensures InGraph(c, p.frontier)
    ensures RealNodes(g, MountPosition(c, base, steps, supersteps, p).frontier)
  {
    RealOnMount(g, c, base, prefix, p.frontier);
  }

  lemma SameWidth(c: CompiledGraph, base: nat, steps: nat, supersteps: nat, p: Position)
    requires InGraph(c, p.frontier)
    ensures |MountPosition(c, base, steps, supersteps, p).frontier| == |p.frontier|
    ensures MountPosition(c, base, steps, supersteps, p).steps == p.steps + steps
  {
  }

  lemma MountCommitIs(prefix: GraphPath, steps: nat)
    ensures forall s :: MountCommit(Committed(s), prefix, steps) == Committed(s)
    ensures forall e :: MountCommit(Rejected(e), prefix, steps) == Rejected(MountError(e, prefix, steps))
    ensures forall nodes, step: nat, cause ::
              MountError(StateBatchUpdateFailed(nodes, step, cause), prefix, steps)
              == StateBatchUpdateFailed(PrefixPaths(nodes, prefix), step + steps, cause)
    ensures forall e :: MountFault(Some(e), prefix, steps) == Some(MountError(e, prefix, steps))
    ensures MountFault(None, prefix, steps).None?
  {
  }

  lemma CommitManyIs(g: CompiledGraph, ops: StateOps, mode: CheckpointMode, p: Position, resume: Option<Resume>,
                     order: seq<nat>)
    requires RealNodes(g, p.frontier) && IsCompletionOrder(order, |p.frontier|)
    ensures Offsets(order, |p.frontier|) && InGraph(g, p.frontier)
    ensures ParallelFault(g, mode, p, resume, order).Some? ==>
              CommitMany(g, ops, mode, p, resume, order) == Rejected(ParallelFault(g, mode, p, resume, order).value)
    ensures ParallelFault(g, mode, p, resume, order).None? ==>
              && AllProduced(g, p, resume)
              && CommitMany(g, ops, mode, p, resume, order)
                 == match ops.applyBatch(p.state, Batch(g, p, resume))
                    case Ok(state) => Committed(state)
                    case Err(cause) => Rejected(StateBatchUpdateFailed(PathsOf(g, p.frontier), p.steps + 1, cause))
  {
    hide NodeResult, ParallelFault;
    NoParallelFault(g, mode, p, resume, order);
  }

  lemma BatchOnMount(g: CompiledGraph, c: CompiledGraph, base: nat, prefix: GraphPath, ops: StateOps, p: Position,
                     resume: Option<Resume>, steps: nat, supersteps: nat)
    requires WellFormed(c) && Embeds(g, c, base, prefix) && StateOnlyNodes(c) && MountBlind(ops, prefix)
    requires RealNodes(c, p.frontier) && AllProduced(c, p, resume)
    ensures RealNodes(g, MountPosition(c, base, steps, supersteps, p).frontier)
    ensures var q := MountPosition(c, base, steps, supersteps, p);
            && AllProduced(g, q, MountResume(resume, base))
            && ops.applyBatch(q.state, Batch(g, q, MountResume(resume, base)))
               == ops.applyBatch(p.state, Batch(c, p, resume))
            && PathsOf(g, q.frontier) == PrefixPaths(PathsOf(c, p.frontier), prefix)
  {
    RealOnMount(g, c, base, prefix, p.frontier);
    hide WellFormed, Embeds, NodeResult, StateOnlyNodes;
    var q, resume' := MountPosition(c, base, steps, supersteps, p), MountResume(resume, base);
    forall k | 0 <= k < |p.frontier|
      ensures NodeResult(g, q, resume', k) == NodeResult(c, p, resume, k)
      ensures PathAt(g, q.frontier[k]) == Prefixed(PathAt(c, p.frontier[k]), prefix)
    {
      NodeOnMount(g, c, base, prefix, p, resume, steps, supersteps, k);
    }
    var a, b := Batch(c, p, resume), Batch(g, q, resume');
    assert b == PrefixUpdates(a, prefix);
  }

  lemma CommitOnMount(g: CompiledGraph, c: CompiledGraph, base: nat, prefix: GraphPath, ops: StateOps,
                      mode: CheckpointMode, p: Position, resume: Option<Resume>, steps: nat, supersteps: nat,
                      order: seq<nat>)
    requires WellFormed(c) && Embeds(g, c, base, prefix) && StateOnlyNodes(c) && MountBlind(ops, prefix)
    requires RealNodes(c, p.frontier) && p.frontier != [] && IsCompletionOrder(order, |p.frontier|)
    ensures RealNodes(g, MountPosition(c, base, steps, supersteps, p).frontier)
    ensures CommitFrontier(g, ops, mode, MountPosition(c, base, steps, supersteps, p), MountResume(resume, base), order)
            == MountCommit(CommitFrontier(c, ops, mode, p, resume, order), prefix, steps)
  {
    hide WellFormed, Embeds, StateOnlyNodes, MountBlind, CommitOne, CommitMany, IsCompletionOrder;
    RealOnMount(g, c, base, prefix, p.frontier);
    if |p.frontier| == 1 {
      CommitOneOnMount(g, c, base, prefix, ops, mode, p, resume, steps, supersteps);
    } else {
      CommitManyOnMount(g, c, base, prefix, ops, mode, p, resume, steps, supersteps, order);
    }
  }

  /** What the parent's super-step must be, given the child's: the same commit;
      then the same frontier in its new slots, or, when the child has finished,
      whatever follows its scope's exit in the committed state. */
  ghost predicate FollowsChild(g: CompiledGraph, c: CompiledGraph, base: nat, prefix: GraphPath, steps: nat,
                               supersteps: nat, child: StepOutcome, parent: StepOutcome)
    requires prefix in g.scopeExits
  {
    match child
    case Suspended(payload) => parent == Suspended(payload)
    case StepFailed(e) => parent == StepFailed(MountError(e, prefix, steps))
    case Spinning => parent == Spinning
    case Panicking => parent == Panicking
    case Advanced(next, bs) =>
      if next.frontier != [] then
        && InGraph(c, next.frontier)
        && parent == Advanced(MountPosition(c, base, steps, supersteps, next), PrefixBoundaries(bs, prefix))
      else
        match Settle(g, [g.scopeExits[prefix]], next.state)
        case Settled(frontier, after) =>
          parent == if RealNodes(g, frontier) then
                      Advanced(Position(next.state, next.steps + steps, next.superstep + supersteps, frontier),
                               PrefixBoundaries(bs, prefix) + after)
                    else Panicking
        case Misrouted(node, error) => parent == StepFailed(RouteFailed(node, next.steps + steps, error))
        case Unsettled => parent == Spinning
  }

  lemma SettledChildStays(g: CompiledGraph, c: CompiledGraph, base: nat, prefix: GraphPath, frontier: seq<nat>,
                          state: State)
    requires WellFormed(c) && Embeds(g, c, base, prefix) && frontier != []
    requires InGraph(c, frontier) && !IsStructural(c, frontier)
    ensures prefix in g.scopeExits
    ensures Settle(g, OnMount(g, c, base, prefix, frontier), state)
            == Settled(Lift(frontier, Mapping(base, |c.items|)), [])
    ensures RealNodes(g, Lift(frontier, Mapping(base, |c.items|))) <==> RealNodes(c, frontier)
  {
    hide WellFormed, Embeds;
    StructureOnMount(g, c, base, prefix, frontier);
    var lifted := Lift(frontier, Mapping(base, |c.items|));
    forall k | 0 <= k < |frontier|
      ensures lifted[k] < |g.items| && (g.items[lifted[k]].Node? <==> c.items[frontier[k]].Node?)
    {
      BlockItem(g, c, base, prefix, frontier[k]);
    }
  }

  /** Where normalization settles there is no structural move left. */
  lemma {:induction false} SettledIsDone(g: CompiledGraph, frontier: seq<nat>, state: State, fuel: nat)
    ensures Normalize(g, frontier, state, fuel).Settled? ==>
              !IsStructural(g, Normalize(g, frontier, state, fuel).frontier)
    decreases fuel
  {
    hide StructuralMove;
    if IsStructural(g, frontier) && fuel > 0 && StructuralMove(g, g.items[frontier[0]], state).Ok? {
      SettledIsDone(g, StructuralMove(g, g.items[frontier[0]], state).value, state, fuel - 1);
    }
  }

  lemma SettleIsDone(g: CompiledGraph, frontier: seq<nat>, state: State)
    ensures Settle(g, frontier, state).Settled? ==> !IsStructural(g, Settle(g, frontier, state).frontier)
  {
    SettledIsDone(g, frontier, state, |g.items| + 1);
  }

  lemma RouteOnMount(g: CompiledGraph, c: CompiledGraph, base: nat, prefix: GraphPath, p: Position, state: State,
                     steps: nat, supersteps: nat)
    requires WellFormed(c) && Embeds(g, c, base, prefix)
    requires FrontierOk(c, p.frontier) && p.frontier != []
    ensures prefix in g.scopeExits && RealNodes(g, MountPosition(c, base, steps, supersteps, p).frontier)
    ensures FollowsChild(g, c, base, prefix, steps, supersteps, RouteOn(c, p, state),
                         RouteOn(g, MountPosition(c, base, steps, supersteps, p), state))
  {
    hide WellFormed, Embeds, RouteAll, Arrive, OnMount, NextFrontier, EmbedItem, Candidate, FollowsChild;
    ScopeOf(g, c, base, prefix);
    RealOnMount(g, c, base, prefix, p.frontier);
    RouteAllOnMount(g, c, base, prefix, p.frontier, state);
    if RouteAll(c, p.frontier, state).Ok? {
      var targets := RouteAll(c, p.frontier, state).value;
      var scope := c.items[p.frontier[0]].graphPath;
      OwnedScope(c, p.frontier[0]);
      PathOnMount(g, c, base, prefix, p.frontier[0]);
      NextFrontierOnMount(g, c, base, prefix, scope, targets);
      ArriveOnMount(g, c, base, prefix, p, NextFrontier(c, scope, targets), state, steps, supersteps);
    } else {
      RouteErrorOnMount(g, c, base, prefix, p, state, steps, supersteps);
    }
  }

  /** Failing and suspending super-steps. */
  lemma HaltsAlike(g: CompiledGraph, c: CompiledGraph, base: nat, prefix: GraphPath, steps: nat, supersteps: nat)
    requires prefix in g.scopeExits
    ensures forall e :: FollowsChild(g, c, base, prefix, steps, supersteps, StepFailed(e),
                                     StepFailed(MountError(e, prefix, steps)))
    ensures forall payload :: FollowsChild(g, c, base, prefix, steps, supersteps, Suspended(payload),
                                           Suspended(payload))
    ensures forall payload :: MountCommit(Held(payload), prefix, steps) == Held(payload)
  {
  }

  lemma RouteErrorOnMount(g: CompiledGraph, c: CompiledGraph, base: nat, prefix: GraphPath, p: Position, state: State,
                          steps: nat, supersteps: nat)
    requires Embeds(g, c, base, prefix) && RealNodes(c, p.frontier) && p.frontier != []
    requires RouteAll(c, p.frontier, state).Err?
    requires InGraph(g, Lift(p.frontier, Mapping(base, |c.items|)))
    requires RouteAll(g, Lift(p.frontier, Mapping(base, |c.items|)), state) == RouteAll(c, p.frontier, state)
    ensures prefix in g.scopeExits && RealNodes(g, MountPosition(c, base, steps, supersteps, p).frontier)
    ensures FollowsChild(g, c, base, prefix, steps, supersteps, RouteOn(c, p, state),
                         RouteOn(g, MountPosition(c, base, steps, supersteps, p), state))
  {
    hide Embeds, FollowsChild, RouteAll, Prefixed, NextFrontier;
    ScopeOf(g, c, base, prefix);
    RealOnMount(g, c, base, prefix, p.frontier);
    RouteAllOffsets(c, p.frontier, state);
    var fault := RouteAll(c, p.frontier, state).error;
    HaltsAlike(g, c, base, prefix, steps, supersteps);
    PathOnMount(g, c, base, prefix, p.frontier[fault.offset]);
    var e := RouteFailed(c.items[p.frontier[fault.offset]].path, p.steps + fault.offset + 1, fault.error);
    assert RouteOn(c, p, state) == StepFailed(e);
    assert RouteOn(g, MountPosition(c, base, steps, supersteps, p), state) == StepFailed(MountError(e, prefix, steps));
  }

  lemma ArriveOnMount(g: CompiledGraph, c: CompiledGraph, base: nat, prefix: GraphPath, p: Position,
                      next: seq<nat>, state: State, steps: nat, supersteps: nat)
    requires WellFormed(c) && Embeds(g, c, base, prefix) && InGraph(c, p.frontier) && InGraph(c, next)
    ensures prefix in g.scopeExits
    ensures FollowsChild(g, c, base, prefix, steps, supersteps, Arrive(c, p, next, state),
                         Arrive(g, MountPosition(c, base, steps, supersteps, p),
                                OnMount(g, c, base, prefix, next), state))
  {
    hide WellFormed, Embeds, Normalize, OnMount, Settle, Arrive, EmbedItem, Prefixed, MountPosition;
    ScopeOf(g, c, base, prefix);
    var lifted, q := OnMount(g, c, base, prefix, next), MountPosition(c, base, steps, supersteps, p);
    SettleOnMount(g, c, base, prefix, next, state);
    ArriveIs(c, p, next, state);
    ArriveIs(g, q, lifted, state);
    MountCounts(c, base, steps, supersteps, p);
    match Settle(c, next, state)
    case Settled(settled, bs) =>
      var after := Position(state, p.steps + |p.frontier|, p.superstep + 1, settled);
      if settled != [] {
        SettleIsDone(c, next, state);
        SettledChildStays(g, c, base, prefix, settled, state);
        assert PrefixBoundaries(bs, prefix) + [] == PrefixBoundaries(bs, prefix);
        MountCounts(c, base, steps, supersteps, after);
      } else {
        NothingOnMount(g, c, base, prefix);
      }
    case Misrouted(_, _) =>
    case Unsettled =>
  }

  lemma ArriveIs(g: CompiledGraph, p: Position, next: seq<nat>, state: State)
    ensures var s, r := Settle(g, next, state), Arrive(g, p, next, state);
            && (s.Settled? ==>
                  r == if RealNodes(g, s.frontier) then
                         Advanced(Position(state, p.steps + |p.frontier|, p.superstep + 1, s.frontier), s.boundaries)
                       else Panicking)
            && (s.Misrouted? ==> r == StepFailed(RouteFailed(s.node, p.steps + |p.frontier|, s.error)))
            && (s.Unsettled? ==> r == Spinning)
  {
    hide Settle;
  }

  lemma MountCounts(c: CompiledGraph, base: nat, steps: nat, supersteps: nat, p: Position)
    requires InGraph(c, p.frontier)
    ensures MountPosition(c, base, steps, supersteps, p)
            == Position(p.state, p.steps + steps, p.superstep + supersteps, Lift(p.frontier, Mapping(base, |c.items|)))
    ensures |MountPosition(c, base, steps, supersteps, p).frontier| == |p.frontier|
  {
  }

  lemma NothingOnMount(g: CompiledGraph, c: CompiledGraph, base: nat, prefix: GraphPath)
    requires prefix in g.scopeExits
    ensures OnMount(g, c, base, prefix, []) == [g.scopeExits[prefix]]
  {
  }

  lemma PathOnMount(g: CompiledGraph, c: CompiledGraph, base: nat, prefix: GraphPath, i: nat)
    requires Embeds(g, c, base, prefix) && i < |c.items| && c.items[i].Node?
    ensures base + i < |g.items| && g.items[base + i].Node?
    ensures g.items[base + i].path == Prefixed(c.items[i].path, prefix)
    ensures g.items[base + i].graphPath == Prefixed(c.items[i].graphPath, prefix)
  {
    BlockItem(g, c, base, prefix, i);
  }

  lemma OwnedScope(c: CompiledGraph, i: nat)
    requires WellFormed(c) && i < |c.items| && c.items[i].Node?
    ensures Owned(c.items[i].graphPath, c.scopeExits)
  {
    assert ItemOk(c, i);
  }

  lemma FrontierIndices(c: CompiledGraph, frontier: seq<nat>)
    requires FrontierOk(c, frontier)
    ensures InGraph(c, frontier) && RealNodes(c, frontier)
  {
  }

  /** One super-step of a mounted child is the child's own super-step. */
  lemma SuperstepOnMount(g: CompiledGraph, c: CompiledGraph, base: nat, prefix: GraphPath, ops: StateOps,
                         mode: CheckpointMode, p: Position, resume: Option<Resume>, steps: nat, supersteps: nat,
                         order: seq<nat>)
    requires WellFormed(c) && Embeds(g, c, base, prefix) && StateOnlyNodes(c) && MountBlind(ops, prefix)
    requires FrontierOk(c, p.frontier) && p.frontier != [] && IsCompletionOrder(order, |p.frontier|)
    ensures prefix in g.scopeExits && RealNodes(g, MountPosition(c, base, steps, supersteps, p).frontier)
    ensures FollowsChild(g, c, base, prefix, steps, supersteps,
                         Superstep(c, ops, mode, p, resume, order),
                         Superstep(g, ops, mode, MountPosition(c, base, steps, supersteps, p),
                                   MountResume(resume, base), order))
  {
    ScopeOf(g, c, base, prefix);
    FrontierIndices(c, p.frontier);
    RealOnMount(g, c, base, prefix, p.frontier);
    hide WellFormed, Embeds, StateOnlyNodes, MountBlind, CommitFrontier, IsCompletionOrder, RouteOn, FrontierOk,
         FollowsChild, MountCommit, RealNodes;
    HaltsAlike(g, c, base, prefix, steps, supersteps);
    MountCommitIs(prefix, steps);
    CommitOnMount(g, c, base, prefix, ops, mode, p, resume, steps, supersteps, order);
    var commit := CommitFrontier(c, ops, mode, p, resume, order);
    if commit.Committed? {
      RouteOnMount(g, c, base, prefix, p, commit.state, steps, supersteps);
    }
  }
}
