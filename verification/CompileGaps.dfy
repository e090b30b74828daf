/** Two graphs that `compile` accepts and the runtime cannot always finish: one
    that can spin without running a node, and one that panics when it continues a
    foreign record (crates/group-agent-core/src/graph.rs:57-435, 689-815;
    crates/group-agent-core/src/runtime.rs:786-828, 900-974, 1736-1822). */
module CompileGaps {
  import opened Base
  import opened Domain
  import opened Paths
  import opened Transitions
  import opened Compiled
  import opened Declared
  import opened Validation
  import opened FrontierCheck
  import opened Flatten
  import opened FlattenSound
  import opened CompiledMeaning
  import opened DeclarationMeaning
  import opened FaultOrder
  import opened StateGraphs
  import opened Runtime
  import opened Frontiers
  import opened Settling
  import opened Records

  // ---- small declarations ----

  lemma NoFaults(faults: seq<Option<GraphCompileError>>)
    requires forall k :: 0 <= k < |faults| ==> faults[k].None?
    ensures FirstFault(faults).None?
  {
    FirstFaultAt(faults, |faults|);
  }

  ghost predicate OneEdgeEach(edges: seq<FixedEdge>) {
    forall i, j :: 0 <= i < j < |edges| ==> edges[i].from != edges[j].from
  }

  lemma {:induction false} OneEdgeCounts(edges: seq<FixedEdge>, id: NodeId)
    requires OneEdgeEach(edges)
    ensures CountFrom(edges, id) == if exists i :: 0 <= i < |edges| && edges[i].from == id then 1 else 0
    ensures forall i :: 0 <= i < |edges| && edges[i].from == id ==>
              CountFrom(edges, id) == 1 && FirstTo(edges, id) == edges[i].to
  {
    if edges != [] { OneEdgeCounts(edges[..|edges| - 1], id); }
  }

  lemma {:induction false} NoFanOutsNoPairs(d: Declaration, depth: nat, x: NodeId, y: NodeId)
    requires d.fanOutEdges == [] && d.conditionalFanOutEdges == []
    ensures !CoActiveIds(d, depth, x, y)
    decreases depth
  {
    if depth > 0 {
      var before := depth - 1;
      if l, r :| CoActiveIds(d, before, l, r) && Activates(d, l, x) && Activates(d, r, y) {
        NoFanOutsNoPairs(d, before, l, r);
      }
    }
  }

  lemma NoFanOutsMountsAlone(d: Declaration)
    requires d.fanOutEdges == [] && d.conditionalFanOutEdges == []
    ensures MountsAlone(d)
  {
    hide CoActiveIds;
    forall x, y, depth: nat ensures !CoActiveIds(d, depth, x, y) { NoFanOutsNoPairs(d, depth, x, y); }
  }

  lemma StepsOn(d: Declaration, length: nat, from: NodeId, to: NodeId)
    requires ReachableIn(d, length, from) && Leads(d, from, to)
    ensures ReachableIn(d, length + 1, to) && Reachable(d, to)
  {
    hide Leads;
    assert ReachableIn(d, length + 1, to);
  }

  /** The transition compiled for an item with one fixed edge. */
  lemma FixedCompiles(d: Declaration, agg: EdgeAggregation, entries: map<NodeId, nat>, g: CompiledGraph, k: nat, e: nat,
                      to: nat)
    requires Assembled(d, agg, entries, g) && OneEdgeEach(d.fixedEdges)
    requires k < |d.items| && e < |d.fixedEdges| && d.fixedEdges[e].from == d.items[k].id
    requires to < |d.items| && d.fixedEdges[e].to == d.items[to].id && d.items[to].id != END
    ensures StoredTargeted(agg, entries, d.items[k].id)
    ensures CompileTransition(agg, entries, d.items[k].id) == Ok(Fixed(Some(Slot(d.items, to))))
  {
    hide BlockPlaced, HeaderPlaced, NodePathsExact, ScopeExitsExact, Slot, BlockBase;
    OneEdgeCounts(d.fixedEdges, d.items[k].id);
    assert Placed(d, agg, entries, Somes(g.items), g.scopeExits, k);
    assert EntryAt(d.items, entries, to);
  }

  /** Where a graph with one START edge begins. */
  lemma EntryCompiles(d: Declaration, agg: EdgeAggregation, entries: map<NodeId, nat>, g: CompiledGraph, e: nat,
                      to: nat)
    requires Assembled(d, agg, entries, g) && OneEdgeEach(d.fixedEdges)
    requires e < |d.fixedEdges| && d.fixedEdges[e].from == START
    requires to < |d.items| && d.fixedEdges[e].to == d.items[to].id && d.items[to].id != END
    ensures g.entry == Some(Slot(d.items, to))
  {
    hide Placed, NodePathsExact, ScopeExitsExact, Slot, BlockBase;
    OneEdgeCounts(d.fixedEdges, START);
    assert EntryAt(d.items, entries, to);
  }

  // ---- an empty child can spin ----

  /** START -> m, and m's router always selects m again although END is declared. */
  function SpinningDeclaration(child: CompiledGraph): Declaration {
    Declaration([Declared("m", SubgraphItem(child))], [FixedEdge(START, "m")], [],
                [Routed("m", ["m", END], STAY)], [], None)
  }

  const STAY: Router := (s: State) => Ok("m")

  const EMPTY_DECLARATION := Declaration([], [FixedEdge(START, END)], [], [], [], None)

  lemma EmptyCompiles()
    ensures ValidDeclaration(EMPTY_DECLARATION)
    ensures DeclarationFault(EMPTY_DECLARATION).None? && MountsAlone(EMPTY_DECLARATION)
  {
    var d := EMPTY_DECLARATION;
    assert d.fixedEdges[0] == FixedEdge(START, END);
    OneEdgeCounts(d.fixedEdges, START);
    NoFaults(FixedFaults(d));
    assert ReachableIn(d, 0, START);
    StepsOn(d, 0, START, END);
    NoFanOutsMountsAlone(d);
  }

  lemma EmptyHasNoEntry(child: CompiledGraph)
    requires Flattens(EMPTY_DECLARATION, child)
    ensures child.entry.None?
  {
    var d := EMPTY_DECLARATION;
    assert d.fixedEdges[0] == FixedEdge(START, END);
    OneEdgeCounts(d.fixedEdges, START);
  }

  lemma MountName()
    ensures "m" != START && "m" != END
  {
    assert |"m"| == 1;
  }

  lemma SpinningCompiles(child: CompiledGraph)
    requires WellFormed(child)
    ensures ValidDeclaration(SpinningDeclaration(child))
    ensures DeclarationFault(SpinningDeclaration(child)).None? && MountsAlone(SpinningDeclaration(child))
  {
    hide WellFormed, EdgeFault, ShapeFault, ReachabilityFault, MountsAlone;
    MountName();
    SpinningEdges(child);
    SpinningShapes(child);
    SpinningReaches(child);
    NoFanOutsMountsAlone(SpinningDeclaration(child));
  }

  lemma SpinningEdges(child: CompiledGraph)
    ensures EdgeFault(SpinningDeclaration(child)).None?
  {
    var d := SpinningDeclaration(child);
    MountName();
    assert d.items[0].id == "m";
    NoFaults(FixedFaults(d));
    assert forall k :: 0 <= k < 2 ==>
      TargetFaults(d, ConditionalKind, "m", d.conditionalEdges[0].targets)[k].None?;
    NoFaults(TargetFaults(d, ConditionalKind, "m", d.conditionalEdges[0].targets));
    NoFaults(RoutedFaults(d, ConditionalKind, d.conditionalEdges));
  }

  lemma SpinningShapes(child: CompiledGraph)
    ensures ShapeFault(SpinningDeclaration(child)).None?
  {
    var d := SpinningDeclaration(child);
    MountName();
    assert d.fixedEdges[0].from == START;
    OneEdgeCounts(d.fixedEdges, START);
    OneEdgeCounts(d.fixedEdges, "m");
    NoFaults(ItemShapeFaults(d));
  }

  lemma SpinningReaches(child: CompiledGraph)
    ensures ReachabilityFault(SpinningDeclaration(child)).None?
  {
    hide ReachableIn, Reachable;
    var d := SpinningDeclaration(child);
    StartReaches(d);
    assert FixedEdge(START, "m") == d.fixedEdges[0];
    StepsOn(d, 0, START, "m");
    assert d.conditionalEdges[0].targets[1] == END && d.conditionalEdges[0] in d.conditionalEdges;
    assert RoutedLeads(d.conditionalEdges, "m", END);
    StepsOn(d, 1, "m", END);
    NoFaults(UnreachableFaults(d));
    assert d.conditionalEdges[0].source == "m";
    NoFaults(MissingFaults(d));
  }

  lemma StartReaches(d: Declaration)
    ensures ReachableIn(d, 0, START)
  {
  }

  /** `compile` accepts an empty child whose mount can select itself, and then
      normalization can go round for ever although no node runs. */
  lemma EmptyMountCanSpin(child: CompiledGraph, g: CompiledGraph, state: State)
    requires WellFormed(child) && child.entry.None? && Flattens(SpinningDeclaration(child), g)
    ensures DeclarationFault(SpinningDeclaration(child)).None? && MountsAlone(SpinningDeclaration(child))
    ensures EmptyMount(g, 0) && Settle(g, TargetIndices(g.entry), state).Unsettled?
  {
    hide WellFormed, Assembled;
    var d := SpinningDeclaration(child);
    SpinningCompiles(child);
    var agg, entries :| Assembled(d, agg, entries, g);
    SpinningItems(child, agg, entries, g);
    SpinningMoves(g, state);
    var fuel := |g.items| + 1;
    SpinsOn(g, state, fuel);
  }

  lemma SpinningItems(child: CompiledGraph, agg: EdgeAggregation, entries: map<NodeId, nat>, g: CompiledGraph)
    requires child.entry.None? && Assembled(SpinningDeclaration(child), agg, entries, g)
    ensures IsSpinner(g)
  {
    var d := SpinningDeclaration(child);
    assert Slot(d.items, 0) == 0;
    HeaderItems(d, agg, entries, g, 0);
    EntryCompilesToMount(child, agg, entries, g);
    MountLoops(child, agg, entries, g);
  }

  /** Entry, exit, and an exit that leads back to the entry. */
  ghost predicate IsSpinner(g: CompiledGraph) {
    && |g.items| >= 2 && g.entry == Some(0)
    && g.items[0] == EnterSubgraph(["m"], Fixed(Some(1)))
    && g.items[1].ExitSubgraph?
    && forall state :: RouteTargets(g.items[1].transition, state) == Ok([0])
  }

  lemma EntryCompilesToMount(child: CompiledGraph, agg: EdgeAggregation, entries: map<NodeId, nat>, g: CompiledGraph)
    requires Assembled(SpinningDeclaration(child), agg, entries, g)
    ensures g.entry == Some(0)
  {
    hide Assembled;
    var d := SpinningDeclaration(child);
    MountName();
    assert d.fixedEdges[0].from == START && d.fixedEdges[0].to == d.items[0].id;
    EntryCompiles(d, agg, entries, g, 0, 0);
  }

  lemma MountLoops(child: CompiledGraph, agg: EdgeAggregation, entries: map<NodeId, nat>, g: CompiledGraph)
    requires Assembled(SpinningDeclaration(child), agg, entries, g)
    ensures StoredTargeted(agg, entries, "m") && CompileTransition(agg, entries, "m").Ok?
    ensures forall state :: RouteTargets(CompileTransition(agg, entries, "m").value, state) == Ok([0])
  {
    hide BlockPlaced, HeaderPlaced, NodePathsExact, ScopeExitsExact, BlockBase;
    var d := SpinningDeclaration(child);
    MountName();
    assert Placed(d, agg, entries, Somes(g.items), g.scopeExits, 0) && d.items[0].id == "m";
    OneEdgeCounts(d.fixedEdges, "m");
    assert EntryAt(d.items, entries, 0);
    assert d.conditionalEdges[0] in d.conditionalEdges;
    assert "m" in d.conditionalEdges[0].targets by { assert d.conditionalEdges[0].targets[0] == "m"; }
  }

  lemma SpinningMoves(g: CompiledGraph, state: State)
    requires IsSpinner(g)
    ensures StructuralMove(g, g.items[0], state) == Ok([1]) && StructuralMove(g, g.items[1], state) == Ok([0])
  {
    SortedSingle([0], 0);
  }

  lemma {:induction false} SpinsOn(g: CompiledGraph, state: State, fuel: nat)
    requires IsSpinner(g)
    ensures Normalize(g, [0], state, fuel).Unsettled? && Normalize(g, [1], state, fuel).Unsettled?
    decreases fuel
  {
    SpinningMoves(g, state);
    if fuel > 0 { SpinsOn(g, state, fuel - 1); }
  }

  method BuildEmpty() returns (child: CompiledGraph)
    ensures WellFormed(child) && child.entry.None?
  {
    hide WellFormed, DeclarationFault, Flattens, MountsAlone;
    var builder := new StateGraph();
    builder.AddEdge(START, END);
    EmptyCompiles();
    assert builder.Decl() == EMPTY_DECLARATION;
    var compiled := builder.Compile();
    child := compiled.value;
    EmptyHasNoEntry(child);
  }

  /** The same graph through the builder: nothing refuses it. */
  method BuildSpinning() returns (child: CompiledGraph, g: CompiledGraph)
    ensures WellFormed(child) && child.entry.None? && Flattens(SpinningDeclaration(child), g)
    ensures forall state :: Settle(g, TargetIndices(g.entry), state).Unsettled?
  {
    hide WellFormed, DeclarationFault, Flattens, MountsAlone, Normalize, ItemRefused, RoutedRefused, Means, Acceptable,
         Justified, Reported;
    child := BuildEmpty();
    MountName();
    var builder := new StateGraph();
    var fault := builder.AddSubgraph("m", child);
    builder.AddEdge(START, "m");
    fault := builder.AddConditionalEdges("m", ["m", END], STAY);
    assert builder.Decl() == SpinningDeclaration(child) by { MountEdgeIsFine(); }
    SpinningCompiles(child);
    var compiled := builder.Compile();
    g := compiled.value;
    forall state ensures Settle(g, TargetIndices(g.entry), state).Unsettled? { EmptyMountCanSpin(child, g, state); }
  }

  lemma MountEdgeIsFine()
    ensures RoutedBuildFault<Router>([], ConditionalKind, "m", ["m", END]).None?
  {
    var targets := ["m", END];
    MountName();
    assert targets[0] != targets[1];
    NoRepeatIsDistinct(targets);
  }

  // ---- an accepted record can panic ----

  /** r selects a or b; a leads to the mount m and b back to r, so nothing ever
      runs a and b together. */
  function MixingDeclaration(kind: NodeKind, router: Router, child: CompiledGraph): Declaration {
    Declaration([Declared("r", NodeItem(kind)), Declared("a", NodeItem(kind)), Declared("b", NodeItem(kind)),
                 Declared("m", SubgraphItem(child))],
                [FixedEdge(START, "r"), FixedEdge("a", "m"), FixedEdge("b", "r"), FixedEdge("m", END)],
                [], [Routed("r", ["a", "b"], router)], [], Some(VERSION))
  }

  const VERSION: GraphVersion := "v"

  lemma Names()
    ensures "r" != "a" && "r" != "b" && "r" != "m" && "a" != "b" && "a" != "m" && "b" != "m"
    ensures !IsReserved("r") && !IsReserved("a") && !IsReserved("b") && !IsReserved("m")
    ensures START != END
  {
    assert "r"[0] != "a"[0] && "r"[0] != "b"[0] && "r"[0] != "m"[0];
    assert "a"[0] != "b"[0] && "a"[0] != "m"[0] && "b"[0] != "m"[0];
    assert |"r"| == 1 && |"a"| == 1 && |"b"| == 1 && |"m"| == 1;
    assert |START| != |END|;
  }

  lemma MixingParts(kind: NodeKind, router: Router, child: CompiledGraph)
    ensures var d := MixingDeclaration(kind, router, child);
            && |d.items| == 4
            && d.items[0] == Declared("r", NodeItem(kind)) && d.items[1] == Declared("a", NodeItem(kind))
            && d.items[2] == Declared("b", NodeItem(kind)) && d.items[3] == Declared("m", SubgraphItem(child))
            && |d.fixedEdges| == 4 && d.fixedEdges[0] == FixedEdge(START, "r") && d.fixedEdges[1] == FixedEdge("a", "m")
            && d.fixedEdges[2] == FixedEdge("b", "r") && d.fixedEdges[3] == FixedEdge("m", END)
            && d.conditionalEdges == [Routed("r", ["a", "b"], router)]
            && d.fanOutEdges == [] && d.conditionalFanOutEdges == []
            && OneEdgeEach(d.fixedEdges) && d.version == Some(VERSION)
            && HasItem(d.items, "r") && HasItem(d.items, "a") && HasItem(d.items, "b") && HasItem(d.items, "m")
  {
    Names();
    var d := MixingDeclaration(kind, router, child);
    assert d.items[0].id == "r" && d.items[1].id == "a" && d.items[2].id == "b" && d.items[3].id == "m";
  }

  lemma MixingCompiles(kind: NodeKind, router: Router, child: CompiledGraph)
    requires WellFormed(child)
    ensures ValidDeclaration(MixingDeclaration(kind, router, child))
    ensures DeclarationFault(MixingDeclaration(kind, router, child)).None?
    ensures MountsAlone(MixingDeclaration(kind, router, child))
  {
    hide WellFormed, EdgeFault, ShapeFault, ReachabilityFault, MountsAlone, MixingDeclaration;
    Names();
    MixingParts(kind, router, child);
    MixingEdges(kind, router, child);
    MixingShapes(kind, router, child);
    MixingReaches(kind, router, child);
    NoFanOutsMountsAlone(MixingDeclaration(kind, router, child));
  }

  lemma MixingEdges(kind: NodeKind, router: Router, child: CompiledGraph)
    ensures EdgeFault(MixingDeclaration(kind, router, child)).None?
  {
    hide MixingDeclaration, HasItem;
    var d := MixingDeclaration(kind, router, child);
    Names();
    MixingParts(kind, router, child);
    NoFaults(FixedFaults(d));
    NoFaults(TargetFaults(d, ConditionalKind, "r", ["a", "b"]));
    NoFaults(RoutedFaults(d, ConditionalKind, d.conditionalEdges));
  }

  lemma MixingShapes(kind: NodeKind, router: Router, child: CompiledGraph)
    ensures ShapeFault(MixingDeclaration(kind, router, child)).None?
  {
    hide MixingDeclaration, CountFrom;
    var d := MixingDeclaration(kind, router, child);
    Names();
    MixingParts(kind, router, child);
    OneEdgeCounts(d.fixedEdges, START);
    OneEdgeCounts(d.fixedEdges, "r");
    OneEdgeCounts(d.fixedEdges, "a");
    OneEdgeCounts(d.fixedEdges, "b");
    OneEdgeCounts(d.fixedEdges, "m");
    NoFaults(ItemShapeFaults(d));
  }

  lemma MixingReaches(kind: NodeKind, router: Router, child: CompiledGraph)
    ensures ReachabilityFault(MixingDeclaration(kind, router, child)).None?
  {
    hide MixingDeclaration, ReachableIn, Reachable, CountFrom;
    var d := MixingDeclaration(kind, router, child);
    Names();
    MixingParts(kind, router, child);
    StartReaches(d);
    StepsOn(d, 0, START, "r");
    assert d.conditionalEdges[0] in d.conditionalEdges;
    assert ["a", "b"][0] == "a" && ["a", "b"][1] == "b";
    assert RoutedLeads(d.conditionalEdges, "r", "a") && RoutedLeads(d.conditionalEdges, "r", "b");
    StepsOn(d, 1, "r", "a");
    StepsOn(d, 1, "r", "b");
    StepsOn(d, 2, "a", "m");
    StepsOn(d, 3, "m", END);
    NoFaults(UnreachableFaults(d));
    OneEdgeCounts(d.fixedEdges, "a");
    OneEdgeCounts(d.fixedEdges, "b");
    OneEdgeCounts(d.fixedEdges, "m");
    assert HasRouted(d.conditionalEdges, "r");
    NoFaults(MissingFaults(d));
  }

  /** What matters of the compiled graph: a leads into the mount, b to r. */
  ghost predicate IsMixer(g: CompiledGraph) {
    && |g.items| >= 4 && g.version == Some(VERSION)
    && g.items[0].Node? && g.items[3].EnterSubgraph?
    && g.items[1].Node? && g.items[1].path == ["a"] && g.items[1].graphPath == ROOT
    && g.items[1].transition == Fixed(Some(3))
    && g.items[2].Node? && g.items[2].path == ["b"] && g.items[2].graphPath == ROOT
    && g.items[2].transition == Fixed(Some(0))
  }

  lemma MixingSlots(kind: NodeKind, router: Router, child: CompiledGraph)
    ensures forall k :: 0 <= k < 4 ==> Slot(MixingDeclaration(kind, router, child).items, k) == k
  {
    hide MixingDeclaration;
    MixingParts(kind, router, child);
    var items := MixingDeclaration(kind, router, child).items;
    assert Slot(items, 1) == 1;
    assert Slot(items, 2) == 2;
    assert Slot(items, 3) == 3;
  }

  lemma MixingItems(kind: NodeKind, router: Router, child: CompiledGraph, g: CompiledGraph)
    requires Flattens(MixingDeclaration(kind, router, child), g)
    ensures IsMixer(g)
  {
    hide MixingDeclaration, Slot, Assembled, CompileTransition, StoredTargeted;
    var d := MixingDeclaration(kind, router, child);
    Names();
    MixingParts(kind, router, child);
    MixingSlots(kind, router, child);
    var agg, entries :| Assembled(d, agg, entries, g);
    SameVersion(d, agg, entries, g);
    HeaderItems(d, agg, entries, g, 0);
    HeaderItems(d, agg, entries, g, 1);
    HeaderItems(d, agg, entries, g, 2);
    HeaderItems(d, agg, entries, g, 3);
    FixedCompiles(d, agg, entries, g, 1, 1, 3);
    FixedCompiles(d, agg, entries, g, 2, 2, 0);
  }

  lemma SameVersion(d: Declaration, agg: EdgeAggregation, entries: map<NodeId, nat>, g: CompiledGraph)
    requires Assembled(d, agg, entries, g)
    ensures g.version == d.version
  {
    hide Placed, NodePathsExact, ScopeExitsExact, Aggregates, BlockBase;
  }

  /** A frontier of a and b, as a foreign record can name it. */
  predicate NamesBoth(record: CheckpointRecord) {
    && record.nextFrontier == [["a"], ["b"]] && record.graphVersion == Some(VERSION)
    && !record.completed && record.interrupt.None?
  }

  lemma MixIsAccepted(g: CompiledGraph, record: CheckpointRecord)
    requires IsMixer(g) && NamesBoth(record)
    ensures Accepts(g, record, [1, 2])
  {
    assert [1, 2][0] == 1 && [1, 2][1] == 2;
    assert PathsOf(g, [1, 2]) == record.nextFrontier;
  }

  lemma MixRoutes(g: CompiledGraph, state: State)
    requires IsMixer(g)
    ensures InGraph(g, [1, 2]) && RouteAll(g, [1, 2], state) == Ok([3, 0])
  {
    assert [1, 2][..1] == [1] && [1][..0] == [];
    assert RouteTargets(g.items[1].transition, state) == Ok([3]);
    assert RouteTargets(g.items[2].transition, state) == Ok([0]);
    assert RouteAll(g, [1][..0], state) == Ok([]);
    assert [] + [3] == [3];
    assert RouteAll(g, [1], state) == Ok([3]);
    assert [3] + [0] == [3, 0];
  }

  lemma MixSettles(g: CompiledGraph, scope: GraphPath, state: State)
    requires IsMixer(g)
    ensures Settle(g, NextFrontier(g, scope, [3, 0]), state) == Settled([0, 3], []) && !RealNodes(g, [0, 3])
  {
    assert [3, 0][1..] == [0] && [0][1..] == [];
    assert SortDedup([0]) == [0];
    assert SortDedup([3, 0]) == [0, 3];
    assert [0, 3][1] == 3;
  }

  /** `compile` accepts the graph, validation accepts a record that names a and b,
      and then every super-step that commits them puts the mount beside r: the
      debug assertion of normalization fails. Nothing the compile-time check
      covers leads there. */
  lemma AcceptedRecordCanPanic(kind: NodeKind, router: Router, child: CompiledGraph, g: CompiledGraph,
                               record: CheckpointRecord)
    requires WellFormed(child) && Flattens(MixingDeclaration(kind, router, child), g) && NamesBoth(record)
    ensures DeclarationFault(MixingDeclaration(kind, router, child)).None?
    ensures MountsAlone(MixingDeclaration(kind, router, child))
    ensures WellFormed(g) && !MayShareFrontier(g.items, 1, 2)
    ensures Accepts(g, record, [1, 2]) && !Harmless(g, [1, 2])
    ensures forall ops, mode, p: Position, resume, order: seq<nat> ::
              p.frontier == [1, 2] && IsCompletionOrder(order, 2) && RealNodes(g, p.frontier)
              && CommitFrontier(g, ops, mode, p, resume, order).Committed? ==>
                Superstep(g, ops, mode, p, resume, order).Panicking?
  {
    hide WellFormed, Flattens, DeclarationFault, MountsAlone, MixingDeclaration, Settle, RouteAll, NextFrontier,
         CommitFrontier, IsCompletionOrder, IsMixer, Accepts, RealNodes;
    MixingCompiles(kind, router, child);
    MixingItems(kind, router, child, g);
    FlattenedIsWellFormed(MixingDeclaration(kind, router, child), g);
    MixIsAccepted(g, record);
    MixIsHarmful(g);
    forall ops, mode, p: Position, resume, order: seq<nat>
      | p.frontier == [1, 2] && IsCompletionOrder(order, 2) && RealNodes(g, p.frontier)
        && CommitFrontier(g, ops, mode, p, resume, order).Committed?
      ensures Superstep(g, ops, mode, p, resume, order).Panicking?
    {
      var state := CommitFrontier(g, ops, mode, p, resume, order).state;
      MixRoutes(g, state);
      MixSettles(g, g.items[1].graphPath, state);
    }
  }

  lemma MixIsHarmful(g: CompiledGraph)
    requires IsMixer(g)
    ensures |g.items| >= 4 && g.items[1].Node? && !Harmless(g, [1, 2])
    ensures WellFormed(g) ==> !MayShareFrontier(g.items, 1, 2)
  {
    hide WellFormed, CoActive;
    assert PairReaches(g.items, 0, 1, 2, 1, 2);
    assert ActivatesEach(g.items, 1, 2, 3, 0);
    assert PairReaches(g.items, 1, 1, 2, 3, 0);
    assert !RealPair(g.items, 3, 0);
    assert [1, 2][0] == 1 && [1, 2][1] == 2;
    assert !Benign(g.items, 1, 2);
    if depth: nat :| WellFormed(g) && CoActive(g.items, depth, 1, 2) { CoActiveIsBenign(g, depth, 1, 2); }
  }

  lemma FlattenedIsWellFormed(d: Declaration, g: CompiledGraph)
    requires ValidDeclaration(d) && DeclarationFault(d).None? && MountsAlone(d) && Flattens(d, g)
    ensures WellFormed(g)
  {
    hide WellFormed, MountsAlone, Assembled, ValidDeclaration, EdgeFault, ShapeFault, ReachabilityFault;
    var agg, entries :| Assembled(d, agg, entries, g);
    ReadyFrom(d, agg, entries, g);
    FlatteningIsWellFormed(d, agg, entries, g);
  }

  function MixingNodes(kind: NodeKind): seq<Declared> {
    [Declared("r", NodeItem(kind)), Declared("a", NodeItem(kind)), Declared("b", NodeItem(kind))]
  }

  method AddMixingNodes(builder: StateGraph, kind: NodeKind)
    requires builder.Valid() && builder.Decl() == Declaration([], [], [], [], [], Some(VERSION))
    modifies builder
    ensures builder.Valid() && builder.Decl() == Declaration(MixingNodes(kind), [], [], [], [], Some(VERSION))
  {
    hide WellFormed, ValidDeclaration;
    Names();
    var fault := builder.AddNode("r", kind);
    assert builder.items == [Declared("r", NodeItem(kind))];
    fault := builder.AddNode("a", kind);
    assert builder.items == [Declared("r", NodeItem(kind)), Declared("a", NodeItem(kind))];
    fault := builder.AddNode("b", kind);
  }

  method AddMixingEdges(builder: StateGraph, router: Router)
    requires builder.Valid() && builder.fixedEdges == [] && builder.conditionalEdges == []
    modifies builder
    ensures builder.Valid()
    ensures builder.Decl() == old(builder.Decl()).(
              fixedEdges := [FixedEdge(START, "r"), FixedEdge("a", "m"), FixedEdge("b", "r"), FixedEdge("m", END)],
              conditionalEdges := [Routed("r", ["a", "b"], router)])
  {
    hide WellFormed, ValidDeclaration;
    builder.AddEdge(START, "r");
    builder.AddEdge("a", "m");
    builder.AddEdge("b", "r");
    builder.AddEdge("m", END);
    TwoTargetsAreFine();
    var fault := builder.AddConditionalEdges("r", ["a", "b"], router);
  }

  /** The same graph through the builder: nothing refuses it. */
  method BuildMixing(kind: NodeKind, router: Router, child: CompiledGraph) returns (g: CompiledGraph)
    requires WellFormed(child)
    ensures Flattens(MixingDeclaration(kind, router, child), g) && WellFormed(g)
  {
    hide WellFormed, DeclarationFault, Flattens, MountsAlone, ValidDeclaration, ItemRefused, RoutedRefused, Means,
         Acceptable, Justified, Reported;
    Names();
    var builder := new StateGraph();
    builder.SetVersion(VERSION);
    AddMixingNodes(builder, kind);
    var fault := builder.AddSubgraph("m", child);
    AddMixingEdges(builder, router);
    assert builder.Decl() == MixingDeclaration(kind, router, child);
    MixingCompiles(kind, router, child);
    var compiled := builder.Compile();
    g := compiled.value;
  }

  lemma TwoTargetsAreFine()
    ensures RoutedBuildFault<Router>([], ConditionalKind, "r", ["a", "b"]).None?
  {
    var targets := ["a", "b"];
    Names();
    assert targets[0] != targets[1];
    NoRepeatIsDistinct(targets);
  }
}
