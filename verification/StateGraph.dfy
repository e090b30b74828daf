/** The graph builder and `compile` (crates/group-agent-core/src/graph.rs:57-435). */
module StateGraphs {
  import opened Base
  import opened Paths
  import opened Transitions
  import opened Compiled
  import opened Declared
  import opened Validation
  import opened FrontierCheck
  import opened Flatten
  import opened Assembly
  import opened FlattenSound
  import opened CompiledMeaning
  import opened DeclarationMeaning
  import opened FaultOrder

  datatype GraphBuildError =
    | ReservedNodeId(id: NodeId)
    | DuplicateNode(id: NodeId)
    | DuplicateSubgraphMount(id: NodeId)
    | MultipleRouted(kind: RoutedKind, source: NodeId)
    | EmptyRoutedTargets(kind: RoutedKind, source: NodeId)
    | DuplicateRoutedTarget(kind: RoutedKind, source: NodeId, target: NodeId)

  function ItemFault(items: seq<Declared>, id: NodeId, mounting: bool): Option<GraphBuildError> {
    if IsReserved(id) then Some(ReservedNodeId(id))
    else if HasItem(items, id) then
      Some(if mounting && IsMount(items, id) then DuplicateSubgraphMount(id) else DuplicateNode(id))
    else None
  }

  /** When an item is refused, and what for. */
  ghost predicate ItemRefused(items: seq<Declared>, id: NodeId, mounting: bool, fault: Option<GraphBuildError>) {
    var reserved := id == "__start__" || id == "__end__";
    var taken := exists k :: 0 <= k < |items| && items[k].id == id;
    var mounted := exists k :: 0 <= k < |items| && items[k].id == id && items[k].item.SubgraphItem?;
    match fault
    case None => !reserved && !taken
    case Some(ReservedNodeId(other)) => other == id && reserved
    case Some(DuplicateNode(other)) => other == id && !reserved && taken && !(mounting && mounted)
    case Some(DuplicateSubgraphMount(other)) => other == id && !reserved && mounting && mounted
    case _ => false
  }

  lemma ItemFaultSays(items: seq<Declared>, id: NodeId, mounting: bool)
    ensures ItemRefused(items, id, mounting, ItemFault(items, id, mounting))
  {
  }

  /** The first target that repeats an earlier one. */
  function FirstRepeat(targets: seq<NodeId>): Option<NodeId> {
    if targets == [] then None
    else
      var shorter, last := targets[..|targets| - 1], targets[|targets| - 1];
      if FirstRepeat(shorter).Some? then FirstRepeat(shorter)
      else if last in shorter then Some(last)
      else None
  }

  lemma {:induction false} NoRepeatIsDistinct(targets: seq<NodeId>)
    ensures FirstRepeat(targets).None? <==> DistinctIds(targets)
  {
    if targets != [] {
      var shorter, last := targets[..|targets| - 1], targets[|targets| - 1];
      NoRepeatIsDistinct(shorter);
      if DistinctIds(shorter) && last !in shorter {
        forall i, j | 0 <= i < j < |targets| ensures targets[i] != targets[j] {
          if j == |targets| - 1 { assert shorter[i] in shorter; } else { assert shorter[i] != shorter[j]; }
        }
      }
      if DistinctIds(targets) {
        assert forall i, j :: 0 <= i < j < |shorter| ==> shorter[i] == targets[i] && shorter[j] == targets[j];
      }
    }
  }

  function RoutedBuildFault<R>(edges: seq<Routed<R>>, kind: RoutedKind, source: NodeId, targets: seq<NodeId>)
    : Option<GraphBuildError>
  {
    if HasRouted(edges, source) then Some(MultipleRouted(kind, source))
    else if targets == [] then Some(EmptyRoutedTargets(kind, source))
    else if FirstRepeat(targets).Some? then Some(DuplicateRoutedTarget(kind, source, FirstRepeat(targets).value))
    else None
  }

  /** When the targets of a routed edge are refused, and what for. */
  ghost predicate RoutedRefused<R>(edges: seq<Routed<R>>, kind: RoutedKind, source: NodeId, targets: seq<NodeId>,
                                   fault: Option<GraphBuildError>)
  {
    var routed := exists k :: 0 <= k < |edges| && edges[k].source == source;
    match fault
    case None => !routed && targets != [] && DistinctIds(targets)
    case Some(MultipleRouted(k, s)) => k == kind && s == source && routed
    case Some(EmptyRoutedTargets(k, s)) => k == kind && s == source && !routed && targets == []
    case Some(DuplicateRoutedTarget(k, s, target)) =>
      k == kind && s == source && !routed && exists i: nat :: RepeatsAt(targets, i, target)
    case _ => false
  }

  /** The i-th is the first target that was there before. */
  ghost predicate RepeatsAt(targets: seq<NodeId>, i: nat, target: NodeId) {
    i < |targets| && targets[i] == target && target in targets[..i] && DistinctIds(targets[..i])
  }

  lemma {:induction false} FirstRepeatRepeats(targets: seq<NodeId>) returns (i: nat)
    requires FirstRepeat(targets).Some?
    ensures RepeatsAt(targets, i, FirstRepeat(targets).value)
  {
    var shorter := targets[..|targets| - 1];
    if FirstRepeat(shorter).Some? {
      i := FirstRepeatRepeats(shorter);
      assert shorter[..i] == targets[..i];
    } else {
      i := |targets| - 1;
      NoRepeatIsDistinct(shorter);
    }
  }

  lemma RoutedFaultSays<R>(edges: seq<Routed<R>>, kind: RoutedKind, source: NodeId, targets: seq<NodeId>)
    ensures RoutedRefused(edges, kind, source, targets, RoutedBuildFault(edges, kind, source, targets))
  {
    NoRepeatIsDistinct(targets);
    if FirstRepeat(targets).Some? { var i := FirstRepeatRepeats(targets); }
  }

  method CheckTargets<R>(edges: seq<Routed<R>>, kind: RoutedKind, source: NodeId, targets: seq<NodeId>)
    returns (fault: Option<GraphBuildError>)
    ensures fault == RoutedBuildFault(edges, kind, source, targets)
    ensures RoutedRefused(edges, kind, source, targets, fault)
  {
    RoutedFaultSays(edges, kind, source, targets);
    if HasRouted(edges, source) { return Some(MultipleRouted(kind, source)); }
    if targets == [] { return Some(EmptyRoutedTargets(kind, source)); }
    var unique: set<NodeId> := {};
    for i := 0 to |targets|
      invariant FirstRepeat(targets[..i]).None?
      invariant forall t :: t in unique <==> t in targets[..i]
    {
      assert targets[..i + 1][..i] == targets[..i];
      if targets[i] in unique {
        RepeatStays(targets, i + 1);
        return Some(DuplicateRoutedTarget(kind, source, targets[i]));
      }
      unique := unique + {targets[i]};
    }
    assert targets[..|targets|] == targets;
    fault := None;
  }

  lemma {:induction false} RepeatStays(targets: seq<NodeId>, k: nat)
    requires k <= |targets| && FirstRepeat(targets[..k]).Some?
    ensures FirstRepeat(targets) == FirstRepeat(targets[..k])
    decreases |targets| - k
  {
    if k == |targets| {
      assert targets[..k] == targets;
    } else {
      assert targets[..k + 1][..k] == targets[..k];
      RepeatStays(targets, k + 1);
    }
  }

  /** The mutable builder: declarations in registration order. */
  class StateGraph {
    var items: seq<Declared>
    var fixedEdges: seq<FixedEdge>
    var fanOutEdges: seq<FanOutEdge>
    var conditionalEdges: seq<ConditionalEdge>
    var conditionalFanOutEdges: seq<ConditionalFanOutEdge>
    var version: Option<GraphVersion>

    function Decl(): Declaration
      reads this
    {
      Declaration(items, fixedEdges, fanOutEdges, conditionalEdges, conditionalFanOutEdges, version)
    }

    ghost predicate Valid()
      reads this
    {
      ValidDeclaration(Decl())
    }

    constructor ()
      ensures Valid()
      ensures Decl() == Declaration([], [], [], [], [], None)
    {
      items, fixedEdges, fanOutEdges, conditionalEdges, conditionalFanOutEdges := [], [], [], [], [];
      version := None;
    }

    method SetVersion(newVersion: GraphVersion)
      requires Valid()
      modifies this
      ensures Valid() && Decl() == old(Decl()).(version := Some(newVersion))
    {
      version := Some(newVersion);
    }

    method AddNode(id: NodeId, kind: NodeKind) returns (fault: Option<GraphBuildError>)
      requires Valid()
      modifies this
      ensures Valid() && fault == ItemFault(old(items), id, false) && ItemRefused(old(items), id, false, fault)
      ensures Decl() == if fault.Some? then old(Decl())
                               else old(Decl()).(items := old(items) + [Declared(id, NodeItem(kind))])
    {
      fault := AddItem(id, NodeItem(kind));
    }

    method AddSubgraph(id: NodeId, graph: CompiledGraph) returns (fault: Option<GraphBuildError>)
      requires Valid() && WellFormed(graph)
      modifies this
      ensures Valid() && fault == ItemFault(old(items), id, true) && ItemRefused(old(items), id, true, fault)
      ensures Decl() == if fault.Some? then old(Decl())
                               else old(Decl()).(items := old(items) + [Declared(id, SubgraphItem(graph))])
    {
      fault := AddItem(id, SubgraphItem(graph));
    }

    method AddItem(id: NodeId, item: DeclaredItem) returns (fault: Option<GraphBuildError>)
      requires Valid() && (item.SubgraphItem? ==> WellFormed(item.graph))
      modifies this
      ensures Valid() && fault == ItemFault(old(items), id, item.SubgraphItem?)
      ensures ItemRefused(old(items), id, item.SubgraphItem?, fault)
      ensures Decl() == if fault.Some? then old(Decl())
                               else old(Decl()).(items := old(items) + [Declared(id, item)])
    {
      hide WellFormed;
      ItemFaultSays(items, id, item.SubgraphItem?);
      if IsReserved(id) { return Some(ReservedNodeId(id)); }
      if HasItem(items, id) {
        return Some(if item.SubgraphItem? && IsMount(items, id) then DuplicateSubgraphMount(id) else DuplicateNode(id));
      }
      items := items + [Declared(id, item)];
      fault := None;
    }

    method AddEdge(from: NodeId, to: NodeId)
      requires Valid()
      modifies this
      ensures Valid() && Decl() == old(Decl()).(fixedEdges := old(fixedEdges) + [FixedEdge(from, to)])
    {
      fixedEdges := fixedEdges + [FixedEdge(from, to)];
    }

    method AddFanOut(source: NodeId, targets: seq<NodeId>) returns (fault: Option<GraphBuildError>)
      requires Valid()
      modifies this
      ensures Valid() && fault == RoutedBuildFault(old(fanOutEdges), FanOutKind, source, targets)
      ensures RoutedRefused(old(fanOutEdges), FanOutKind, source, targets, fault)
      ensures Decl() == if fault.Some? then old(Decl())
                               else old(Decl()).(fanOutEdges := old(fanOutEdges) + [Routed(source, targets, ())])
    {
      hide WellFormed;
      fault := CheckTargets(fanOutEdges, FanOutKind, source, targets);
      if fault.Some? { return; }
      NoRepeatIsDistinct(targets);
      AppendedSources(fanOutEdges, Routed(source, targets, ()));
      fanOutEdges := fanOutEdges + [Routed(source, targets, ())];
    }

    method AddConditionalEdges(source: NodeId, allowedTargets: seq<NodeId>, router: Router)
      returns (fault: Option<GraphBuildError>)
      requires Valid()
      modifies this
      ensures Valid() && fault == RoutedBuildFault(old(conditionalEdges), ConditionalKind, source, allowedTargets)
      ensures RoutedRefused(old(conditionalEdges), ConditionalKind, source, allowedTargets, fault)
      ensures Decl() ==
              if fault.Some? then old(Decl())
              else old(Decl()).(conditionalEdges := old(conditionalEdges) + [Routed(source, allowedTargets, router)])
    {
      hide WellFormed;
      fault := CheckTargets(conditionalEdges, ConditionalKind, source, allowedTargets);
      if fault.Some? { return; }
      AppendedSources(conditionalEdges, Routed(source, allowedTargets, router));
      conditionalEdges := conditionalEdges + [Routed(source, allowedTargets, router)];
    }

    method AddConditionalFanOut(source: NodeId, allowedTargets: seq<NodeId>, router: FanOutRouter)
      returns (fault: Option<GraphBuildError>)
      requires Valid()
      modifies this
      ensures Valid()
      ensures fault == RoutedBuildFault(old(conditionalFanOutEdges), ConditionalFanOutKind, source, allowedTargets)
      ensures RoutedRefused(old(conditionalFanOutEdges), ConditionalFanOutKind, source, allowedTargets, fault)
      ensures Decl() ==
              if fault.Some? then old(Decl())
              else old(Decl()).(conditionalFanOutEdges :=
                old(conditionalFanOutEdges) + [Routed(source, allowedTargets, router)])
    {
      hide WellFormed;
      fault := CheckTargets(conditionalFanOutEdges, ConditionalFanOutKind, source, allowedTargets);
      if fault.Some? { return; }
      AppendedSources(conditionalFanOutEdges, Routed(source, allowedTargets, router));
      conditionalFanOutEdges := conditionalFanOutEdges + [Routed(source, allowedTargets, router)];
    }

    /** Reports the first fault of the declaration, or a mount that could run
        beside another item; otherwise every slot is filled and the result is
        the well-formed flattening of the declaration, and means what it says. */
    method Compile() returns (r: Result<CompiledGraph, GraphCompileError>)
      requires Valid()
      ensures match DeclarationFault(Decl())
              case Some(fault) => r == Err(fault)
              case None =>
                if MountsAlone(Decl()) then
                  r.Ok? && Flattens(Decl(), r.value) && WellFormed(r.value) && Means(Decl(), r.value)
                else
                  && r.Err? && r.error.SubgraphInParallelFrontier?
                  && MisplacedMount(Decl(), r.error.id)
      ensures r.Ok? <==> Acceptable(Decl()) && MountsAlone(Decl())
      ensures r.Err? ==> Justified(Decl(), r.error)
      ensures r.Err? && !r.error.SubgraphInParallelFrontier? ==> Reported(Decl(), r.error)
    {
      hide *;
      var d := Decl();
      DeclIs();
      CheckedIsAcceptable(d);
      MisplacedIsJustified(d);
      FirstIsReported(d);
      var aggregated := AggregateEdges(d);
      if aggregated.Err? { return Err(aggregated.error); }
      var agg := aggregated.value;
      var fault := ValidateEdgeShapes(d, agg);
      if fault.Some? { return Err(fault.value); }
      fault := ValidateReachability(d, agg);
      if fault.Some? { return Err(fault.value); }
      fault := ValidateSubgraphFrontiers(d, agg);
      if fault.Some? { return Err(fault.value); }

      var g := Assemble(d, agg);
      r := Ok(g);
    }

    lemma DeclIs()
      ensures Valid() ==> ValidDeclaration(Decl())
      ensures DeclarationFault(Decl()) ==
              Else(EdgeFault(Decl()), Else(ShapeFault(Decl()), ReachabilityFault(Decl())))
      ensures forall a: Option<GraphCompileError>, b: Option<GraphCompileError> ::
                Else(a, b) == if a.Some? then a else b
    {
    }
  }

  lemma AppendedSources<R>(edges: seq<Routed<R>>, edge: Routed<R>)
    requires DistinctSources(edges) && !HasRouted(edges, edge.source)
    ensures DistinctSources(edges + [edge])
  {
  }

  lemma ReadyOf(d: Declaration, agg: EdgeAggregation, entries: map<NodeId, nat>)
    requires ValidDeclaration(d) && Aggregates(d, agg) && EntriesOf(d.items, entries)
    requires EdgeFault(d).None? && ShapeFault(d).None? && ReachabilityFault(d).None?
    ensures Ready(d, agg, entries) && DistinctItems(d.items)
  {
  }

  /** The two passes over the declared items, and the finished graph. */
  method Assemble(d: Declaration, agg: EdgeAggregation) returns (g: CompiledGraph)
    requires ValidDeclaration(d) && Aggregates(d, agg)
    requires EdgeFault(d).None? && ShapeFault(d).None? && ReachabilityFault(d).None? && MountsAlone(d)
    ensures Flattens(d, g) && WellFormed(g) && Means(d, g)
  {
    hide *;
    DistinctOf(d);
    var builder := new FlatBuilder();
    var entries, mountExits := AllocateEntries(builder, d.items);
    EntriesAre(d.items, entries);
    ReadyOf(d, agg, entries);
    NothingFilled(d, agg, entries, builder.items, builder.nodePaths, builder.scopeExits);
    for k := 0 to |d.items|
      invariant FilledTo(d, agg, entries, builder.items, builder.nodePaths, builder.scopeExits, k)
    {
      TransitionExists(d, agg, entries, k);
      var transition := CompileTransition(agg, entries, d.items[k].id).value;
      match d.items[k].item
      case NodeItem(_) => FillNode(builder, d, agg, entries, transition, k);
      case SubgraphItem(_) =>
        MountExitIs(d.items, mountExits, k);
        FillMount(builder, d, agg, entries, mountExits[d.items[k].id], transition, k);
    }
    FilledEverywhere(d, agg, entries, builder.items, builder.nodePaths, builder.scopeExits);
    StartIsTargeted(d, agg, entries);
    var entry := EntryTarget(agg, entries);
    var items := builder.Finish();
    g := CompiledGraph(items, builder.nodePaths, builder.scopeExits, entry, d.version);
    FilledIsAssembled(d, agg, entries, g);
    FlatteningIsWellFormed(d, agg, entries, g);
    AssembledMeans(d, agg, entries, g);
  }

  lemma DistinctOf(d: Declaration)
    requires ValidDeclaration(d)
    ensures DistinctItems(d.items)
  {
  }

  lemma EntriesAre(items: seq<Declared>, entries: map<NodeId, nat>)
    requires EntriesOf(items, entries)
    ensures forall id :: id in entries ==> HasItem(items, id)
  {
  }

  lemma MountExitIs(items: seq<Declared>, mountExits: map<NodeId, nat>, k: nat)
    requires k < |items| && items[k].item.SubgraphItem? && MountExitAt(items, mountExits, k)
    ensures items[k].id in mountExits && mountExits[items[k].id] == Slot(items, k) + 1
  {
  }

  lemma NothingFilled(d: Declaration, agg: EdgeAggregation, entries: map<NodeId, nat>,
                      slots: seq<Option<CompiledItem>>, paths: map<NodePath, nat>, exits: map<GraphPath, nat>)
    requires |slots| == Slot(d.items, |d.items|) && forall i :: 0 <= i < |slots| ==> slots[i].None?
    requires paths == map[] && exits == map[]
    ensures FilledTo(d, agg, entries, slots, paths, exits, 0)
  {
    forall j | 0 <= j < |d.items| ensures HeaderEmpty(d, slots, j) {
      SlotsAscend(d.items, j, |d.items|);
    }
  }

  lemma StartIsTargeted(d: Declaration, agg: EdgeAggregation, entries: map<NodeId, nat>)
    requires Ready(d, agg, entries)
    ensures START in agg.fixedBySource && Targeted([agg.fixedBySource[START].successor], entries)
  {
    StoredIsTargeted(d, agg, entries, START);
    AggregationCounts(d, agg, START);
  }

  lemma FilledIsAssembled(d: Declaration, agg: EdgeAggregation, entries: map<NodeId, nat>, g: CompiledGraph)
    requires FilledTo(d, agg, entries, Somes(g.items), g.nodePaths, g.scopeExits, |d.items|)
    requires ROOT !in g.scopeExits && Ready(d, agg, entries)
    requires START in agg.fixedBySource && Targeted([agg.fixedBySource[START].successor], entries)
    requires g.entry == EntryTarget(agg, entries) && g.version == d.version
    ensures Assembled(d, agg, entries, g) && Flattens(d, g)
  {
    hide Placed, NodePathsExact, ScopeExitsExact, EdgeFault, ShapeFault, ReachabilityFault, ValidDeclaration,
         Aggregates, EntriesOf, OwnedByEarlier;
  }
}
