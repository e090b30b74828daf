/** Which declarations `compile` accepts, said without the order of its checks, and
    what each error means (crates/group-agent-core/src/graph.rs:477-687). */
module DeclarationMeaning {
  import opened Base
  import opened Paths
  import opened Declared
  import opened FrontierCheck

  // ---- the statement ----

  /** An edge of this routed kind. */
  ghost predicate Routes(d: Declaration, kind: RoutedKind, source: NodeId, targets: seq<NodeId>) {
    match kind
    case FanOutKind => exists e :: e in d.fanOutEdges && e.source == source && e.targets == targets
    case ConditionalKind => exists e :: e in d.conditionalEdges && e.source == source && e.targets == targets
    case ConditionalFanOutKind =>
      exists e :: e in d.conditionalFanOutEdges && e.source == source && e.targets == targets
  }

  ghost function RoutedSources<R>(edges: seq<Routed<R>>): (r: seq<NodeId>)
    ensures |r| == |edges| && forall i :: 0 <= i < |r| ==> r[i] == edges[i].source
  {
    seq(|edges|, i requires 0 <= i < |edges| => edges[i].source)
  }

  ghost function FixedSources(edges: seq<FixedEdge>): (r: seq<NodeId>)
    ensures |r| == |edges| && forall i :: 0 <= i < |r| ==> r[i] == edges[i].from
  {
    seq(|edges|, i requires 0 <= i < |edges| => edges[i].from)
  }

  /** Where every edge starts, once an edge. */
  ghost function Sources(d: Declaration): seq<NodeId> {
    FixedSources(d.fixedEdges) + RoutedSources(d.fanOutEdges) + RoutedSources(d.conditionalEdges)
    + RoutedSources(d.conditionalFanOutEdges)
  }

  ghost predicate EdgesKnown(d: Declaration) {
    forall from, to :: FixedEdge(from, to) in d.fixedEdges ==>
      (from == START || HasItem(d.items, from)) && (to == END || HasItem(d.items, to))
  }

  ghost predicate RoutesKnown(d: Declaration, kind: RoutedKind) {
    forall source, targets :: Routes(d, kind, source, targets) ==>
      && HasItem(d.items, source)
      && forall t :: t in targets && t != END ==>
           HasItem(d.items, t) && (kind.ConditionalFanOutKind? ==> !IsMount(d.items, t))
  }

  /** Every edge runs from START or an item to END or an item, and no conditional
      fan-out to a mount; exactly one edge leaves START, a fixed one, and exactly one
      leaves every item; every item and END can be reached. */
  ghost predicate Acceptable(d: Declaration) {
    && EdgesKnown(d) && (forall kind :: RoutesKnown(d, kind))
    && multiset(Sources(d))[START] == 1
    && (forall k :: 0 <= k < |d.items| ==> multiset(Sources(d))[d.items[k].id] == 1)
    && (forall k :: 0 <= k < |d.items| ==> Reachable(d, d.items[k].id))
    && Reachable(d, END)
  }

  /** What the declaration did to earn this error. */
  ghost predicate Justified(d: Declaration, fault: GraphCompileError) {
    match fault
    case UnknownNode(from, to, id) =>
      FixedEdge(from, to) in d.fixedEdges && id in {from, to} && !IsReserved(id) && !HasItem(d.items, id)
    case StartHasIncoming(from) =>
      || FixedEdge(from, START) in d.fixedEdges
      || (exists kind, targets :: Routes(d, kind, from, targets) && START in targets)
    case EndHasOutgoing(to) => FixedEdge(END, to) in d.fixedEdges
    case StartHasRouting(kind) => exists targets :: Routes(d, kind, START, targets)
    case EndHasRouting(kind) => exists targets :: Routes(d, kind, END, targets)
    case UnknownSource(kind, source) =>
      !IsReserved(source) && !HasItem(d.items, source) && exists targets :: Routes(d, kind, source, targets)
    case UnknownTarget(kind, source, target) =>
      && !IsReserved(target) && !HasItem(d.items, target)
      && exists targets :: Routes(d, kind, source, targets) && target in targets
    case ConditionalFanOutTargetsSubgraph(source, target) =>
      && IsMount(d.items, target)
      && exists targets :: Routes(d, ConditionalFanOutKind, source, targets) && target in targets
    case MissingStartEdge => forall to :: FixedEdge(START, to) !in d.fixedEdges
    case MultipleStartEdges(count) => count > 1 && multiset(FixedSources(d.fixedEdges))[START] == count
    case MultipleOutgoingEdges(id, count) =>
      HasItem(d.items, id) && count > 1 && multiset(FixedSources(d.fixedEdges))[id] == count
    case MixedOutgoingEdgeKinds(id) =>
      HasItem(d.items, id) && multiset(FixedSources(d.fixedEdges))[id] <= 1 && multiset(Sources(d))[id] > 1
    case UnreachableNode(id) => HasItem(d.items, id) && !Reachable(d, id)
    case MissingOutgoingEdge(id) => HasItem(d.items, id) && multiset(Sources(d))[id] == 0
    case NoReachableEnd => !Reachable(d, END)
    case SubgraphInParallelFrontier(id) => MisplacedMount(d, id)
    case DuplicateNodePath(_) => false
  }

  // ---- the three groups of checks ----

  ghost predicate EdgesLead(d: Declaration) {
    && EdgesKnown(d)
    && (forall from, to :: FixedEdge(from, to) in d.fixedEdges ==> from != END && to != START)
    && forall kind, source, targets :: Routes(d, kind, source, targets) ==> RouteKnown(d, kind, source, targets)
  }

  /** One routed edge runs from an item to items or END. */
  ghost predicate RouteKnown(d: Declaration, kind: RoutedKind, source: NodeId, targets: seq<NodeId>) {
    && source != START && source != END && HasItem(d.items, source)
    && forall t :: t in targets && t != END ==>
         t != START && HasItem(d.items, t) && (kind.ConditionalFanOutKind? ==> !IsMount(d.items, t))
  }

  ghost predicate ShapesFit(d: Declaration) {
    && CountFrom(d.fixedEdges, START) == 1
    && forall k :: 0 <= k < |d.items| ==> multiset(Sources(d))[d.items[k].id] <= 1
  }

  ghost predicate AllReached(d: Declaration) {
    && (forall k :: 0 <= k < |d.items| ==> Reachable(d, d.items[k].id))
    && (forall k :: 0 <= k < |d.items| ==> multiset(Sources(d))[d.items[k].id] > 0)
    && Reachable(d, END)
  }

  // ---- counting edges ----

  lemma {:induction false} CountIsMultiplicity(edges: seq<FixedEdge>, id: NodeId)
    ensures CountFrom(edges, id) == multiset(FixedSources(edges))[id]
  {
    if edges != [] {
      var shorter := edges[..|edges| - 1];
      CountIsMultiplicity(shorter, id);
      assert FixedSources(edges) == FixedSources(shorter) + [edges[|edges| - 1].from];
    }
  }

  lemma {:induction false} RoutedCount<R>(edges: seq<Routed<R>>, id: NodeId)
    requires DistinctSources(edges)
    ensures multiset(RoutedSources(edges))[id] == One(HasRouted(edges, id))
  {
    if edges != [] {
      var n := |edges| - 1;
      var shorter := edges[..n];
      RoutedCount(shorter, id);
      assert RoutedSources(edges) == RoutedSources(shorter) + [edges[n].source];
      assert HasRouted(edges, id) <==> HasRouted(shorter, id) || edges[n].source == id by {
        if HasRouted(shorter, id) {
          var i :| 0 <= i < n && shorter[i].source == id;
          assert edges[i].source == id;
        }
        if edges[n].source == id { assert HasRouted(edges, id); }
      }
      if HasRouted(shorter, id) {
        var i :| 0 <= i < n && shorter[i].source == id;
        assert edges[i].source == id;
      }
    }
  }

  /** How many edges leave an identifier, kind by kind. */
  lemma SourceCounts(d: Declaration, id: NodeId)
    requires ValidDeclaration(d)
    ensures multiset(FixedSources(d.fixedEdges))[id] == CountFrom(d.fixedEdges, id)
    ensures multiset(Sources(d))[id]
            == CountFrom(d.fixedEdges, id) + One(HasRouted(d.fanOutEdges, id)) + One(HasRouted(d.conditionalEdges, id))
               + One(HasRouted(d.conditionalFanOutEdges, id))
  {
    CountIsMultiplicity(d.fixedEdges, id);
    RoutedCount(d.fanOutEdges, id);
    RoutedCount(d.conditionalEdges, id);
    RoutedCount(d.conditionalFanOutEdges, id);
  }

  /** The shape check asks for one START edge and at most one edge of an item, and
      names what it finds. */
  lemma ShapeMeans(d: Declaration)
    requires ValidDeclaration(d)
    ensures ShapeFault(d).None? <==> ShapesFit(d)
    ensures ShapeFault(d).Some? ==> Justified(d, ShapeFault(d).value)
  {
    hide Sources, CountFrom;
    SourceCounts(d, START);
    forall k | 0 <= k < |d.items|
      ensures ItemShapeFault(d, d.items[k].id).None? <==> multiset(Sources(d))[d.items[k].id] <= 1
      ensures ItemShapeFault(d, d.items[k].id).Some? ==> Justified(d, ItemShapeFault(d, d.items[k].id).value)
    {
      ItemShapeMeans(d, k);
    }
    FirstFaultMeans(ItemShapeFaults(d));
    if CountFrom(d.fixedEdges, START) == 0 { NoSuchEdge(d.fixedEdges, START); }
  }

  lemma ItemShapeMeans(d: Declaration, k: nat)
    requires ValidDeclaration(d) && k < |d.items|
    ensures ItemShapeFault(d, d.items[k].id).None? <==> multiset(Sources(d))[d.items[k].id] <= 1
    ensures ItemShapeFault(d, d.items[k].id).Some? ==> Justified(d, ItemShapeFault(d, d.items[k].id).value)
  {
    hide Sources, CountFrom;
    SourceCounts(d, d.items[k].id);
    assert HasItem(d.items, d.items[k].id);
  }

  lemma NoSuchEdge(edges: seq<FixedEdge>, from: NodeId)
    requires CountFrom(edges, from) == 0
    ensures forall to :: FixedEdge(from, to) !in edges
  {
    forall to ensures FixedEdge(from, to) !in edges { FixedEdgesCount(edges, from, to); }
  }

  /** The first fault of a list is one of the list, and there is none exactly when
      there is none in it. */
  lemma FirstFaultMeans(faults: seq<Option<GraphCompileError>>)
    ensures FirstFault(faults).None? <==> forall k :: 0 <= k < |faults| ==> faults[k].None?
    ensures FirstFault(faults).Some? ==> exists k :: 0 <= k < |faults| && faults[k] == FirstFault(faults)
  {
    if FirstFault(faults).None? {
      NoFirstFault(faults);
    } else {
      FirstFaultIsThere(faults);
    }
  }

  lemma {:induction false} FirstFaultIsThere(faults: seq<Option<GraphCompileError>>)
    requires FirstFault(faults).Some?
    ensures exists k :: 0 <= k < |faults| && faults[k] == FirstFault(faults)
  {
    if faults[0].None? {
      FirstFaultIsThere(faults[1..]);
      var k :| 0 <= k < |faults[1..]| && faults[1..][k] == FirstFault(faults[1..]);
      assert faults[k + 1] == FirstFault(faults);
    } else {
      assert faults[0] == FirstFault(faults);
    }
  }

  // ---- the edges ----

  lemma FixedMeans(d: Declaration)
    ensures FirstFault(FixedFaults(d)).None? <==>
            EdgesKnown(d) && (forall from, to :: FixedEdge(from, to) in d.fixedEdges ==> from != END && to != START)
    ensures FirstFault(FixedFaults(d)).Some? ==> Justified(d, FirstFault(FixedFaults(d)).value)
  {
    FirstFaultMeans(FixedFaults(d));
    if FirstFault(FixedFaults(d)).None? {
      forall from, to | FixedEdge(from, to) in d.fixedEdges
        ensures (from == START || HasItem(d.items, from)) && (to == END || HasItem(d.items, to))
        ensures from != END && to != START
      {
        var i :| 0 <= i < |d.fixedEdges| && d.fixedEdges[i] == FixedEdge(from, to);
        assert FixedFaults(d)[i].None?;
      }
    } else {
      var k :| 0 <= k < |d.fixedEdges| && FixedFaults(d)[k] == FirstFault(FixedFaults(d));
      assert d.fixedEdges[k] == FixedEdge(d.fixedEdges[k].from, d.fixedEdges[k].to) && d.fixedEdges[k] in d.fixedEdges;
    }
  }

  lemma RouteMeans(d: Declaration, kind: RoutedKind, source: NodeId, targets: seq<NodeId>)
    requires Routes(d, kind, source, targets)
    ensures RoutedFault(d, kind, source, targets).None? <==> RouteKnown(d, kind, source, targets)
    ensures RoutedFault(d, kind, source, targets).Some? ==> Justified(d, RoutedFault(d, kind, source, targets).value)
  {
    hide Routes;
    var faults := TargetFaults(d, kind, source, targets);
    FirstFaultMeans(faults);
    StartIsNotEnd();
    if FirstFault(faults).Some? {
      var k :| 0 <= k < |faults| && faults[k] == FirstFault(faults);
      assert targets[k] in targets;
    } else {
      forall t | t in targets ensures TargetFault(d, kind, source, t).None? {
        var k :| 0 <= k < |targets| && targets[k] == t;
        assert faults[k].None?;
      }
    }
    if RoutedFault(d, kind, source, targets).Some? {
      RouteIsJustified(d, kind, source, targets);
    }
  }

  lemma StartIsNotEnd()
    ensures START != END
  {
    assert |START| != |END|;
  }

  lemma RouteIsJustified(d: Declaration, kind: RoutedKind, source: NodeId, targets: seq<NodeId>)
    requires Routes(d, kind, source, targets) && RoutedFault(d, kind, source, targets).Some?
    ensures Justified(d, RoutedFault(d, kind, source, targets).value)
  {
    hide Routes, FirstFault;
    var faults := TargetFaults(d, kind, source, targets);
    FirstFaultMeans(faults);
    if FirstFault(faults).Some? {
      var k :| 0 <= k < |faults| && faults[k] == FirstFault(faults);
      assert targets[k] in targets && faults[k] == TargetFault(d, kind, source, targets[k]);
    }
  }

  lemma RoutedMeans<R>(d: Declaration, kind: RoutedKind, edges: seq<Routed<R>>)
    requires forall source, targets ::
               Routes(d, kind, source, targets) <==>
               exists e :: e in edges && e.source == source && e.targets == targets
    ensures FirstFault(RoutedFaults(d, kind, edges)).None? <==>
            forall source, targets :: Routes(d, kind, source, targets) ==> RouteKnown(d, kind, source, targets)
    ensures FirstFault(RoutedFaults(d, kind, edges)).Some? ==>
              Justified(d, FirstFault(RoutedFaults(d, kind, edges)).value)
  {
    hide Routes, RouteKnown, Justified;
    var faults := RoutedFaults(d, kind, edges);
    FirstFaultMeans(faults);
    forall i | 0 <= i < |edges|
      ensures Routes(d, kind, edges[i].source, edges[i].targets)
      ensures faults[i].None? <==> RouteKnown(d, kind, edges[i].source, edges[i].targets)
      ensures faults[i].Some? ==> Justified(d, faults[i].value)
    {
      assert edges[i] in edges;
      RouteMeans(d, kind, edges[i].source, edges[i].targets);
    }
  }

  lemma EdgeMeans(d: Declaration)
    ensures EdgeFault(d).None? <==> EdgesLead(d)
    ensures EdgeFault(d).Some? ==> Justified(d, EdgeFault(d).value)
  {
    KindsAre(d);
    hide Justified, RouteKnown, EdgesKnown, Routes, FirstFault;
    FixedMeans(d);
    RoutedMeans(d, ConditionalKind, d.conditionalEdges);
    RoutedMeans(d, FanOutKind, d.fanOutEdges);
    RoutedMeans(d, ConditionalFanOutKind, d.conditionalFanOutEdges);
    if EdgeFault(d).None? {
      forall kind, source, targets | Routes(d, kind, source, targets) ensures RouteKnown(d, kind, source, targets) {
        match kind
        case FanOutKind =>
        case ConditionalKind =>
        case ConditionalFanOutKind =>
      }
    }
  }

  lemma KindsAre(d: Declaration)
    ensures forall source, targets :: Routes(d, FanOutKind, source, targets) <==>
              exists e :: e in d.fanOutEdges && e.source == source && e.targets == targets
    ensures forall source, targets :: Routes(d, ConditionalKind, source, targets) <==>
              exists e :: e in d.conditionalEdges && e.source == source && e.targets == targets
    ensures forall source, targets :: Routes(d, ConditionalFanOutKind, source, targets) <==>
              exists e :: e in d.conditionalFanOutEdges && e.source == source && e.targets == targets
  {
  }

  // ---- reachability ----

  lemma UnreachableMeans(d: Declaration)
    ensures FirstFault(UnreachableFaults(d)).None? <==> forall k :: 0 <= k < |d.items| ==> Reachable(d, d.items[k].id)
    ensures FirstFault(UnreachableFaults(d)).Some? ==> Justified(d, FirstFault(UnreachableFaults(d)).value)
  {
    hide Reachable, FirstFault;
    FirstFaultMeans(UnreachableFaults(d));
    assert forall k :: 0 <= k < |d.items| ==> HasItem(d.items, d.items[k].id);
  }

  lemma MissingMeans(d: Declaration)
    requires ValidDeclaration(d)
    ensures FirstFault(MissingFaults(d)).None? <==>
            forall k :: 0 <= k < |d.items| ==> multiset(Sources(d))[d.items[k].id] > 0
    ensures FirstFault(MissingFaults(d)).Some? ==> Justified(d, FirstFault(MissingFaults(d)).value)
  {
    hide Sources, CountFrom, FirstFault, HasOutgoing;
    FirstFaultMeans(MissingFaults(d));
    forall k | 0 <= k < |d.items|
      ensures HasItem(d.items, d.items[k].id)
      ensures HasOutgoing(d, d.items[k].id) <==> multiset(Sources(d))[d.items[k].id] > 0
    {
      OutgoingCounts(d, d.items[k].id);
    }
  }

  lemma OutgoingCounts(d: Declaration, id: NodeId)
    requires ValidDeclaration(d)
    ensures HasOutgoing(d, id) <==> multiset(Sources(d))[id] > 0
  {
    SourceCounts(d, id);
    hide Sources, CountFrom, HasRouted;
  }

  lemma ReachabilityMeans(d: Declaration)
    requires ValidDeclaration(d)
    ensures ReachabilityFault(d).None? <==> AllReached(d)
    ensures ReachabilityFault(d).Some? ==> Justified(d, ReachabilityFault(d).value)
  {
    hide Sources, Reachable, FirstFault, ValidDeclaration;
    UnreachableMeans(d);
    MissingMeans(d);
  }

  // ---- the whole check ----

  /** The checks before the pair worklist pass exactly the acceptable declarations,
      and the error they report is one the declaration has earned. */
  lemma CheckedIsAcceptable(d: Declaration)
    requires ValidDeclaration(d)
    ensures DeclarationFault(d).None? <==> Acceptable(d)
    ensures DeclarationFault(d).Some? ==> Justified(d, DeclarationFault(d).value)
  {
    hide EdgeFault, ShapeFault, ReachabilityFault, Justified, EdgesLead, ShapesFit, AllReached, ValidDeclaration,
         Acceptable;
    EdgeMeans(d);
    ShapeMeans(d);
    ReachabilityMeans(d);
    TogetherAcceptable(d);
  }

  lemma TogetherAcceptable(d: Declaration)
    requires ValidDeclaration(d)
    ensures EdgesLead(d) && ShapesFit(d) && AllReached(d) <==> Acceptable(d)
  {
    ItemsAreNotReserved(d);
    StartIsNotEnd();
    SourceCounts(d, START);
    hide Sources, CountFrom, HasItem, Reachable, ValidDeclaration, HasRouted, Routes;
    LeadingEdges(d);
    if EdgesLead(d) { NothingRoutesFromStart(d); }
  }

  lemma LeadingEdges(d: Declaration)
    requires ValidDeclaration(d)
    ensures EdgesLead(d) <==> EdgesKnown(d) && forall kind :: RoutesKnown(d, kind)
  {
    ItemsAreNotReserved(d);
    StartIsNotEnd();
    hide Sources, HasItem, ValidDeclaration, Routes, IsMount;
    if EdgesKnown(d) && forall kind :: RoutesKnown(d, kind) {
      forall kind, source, targets | Routes(d, kind, source, targets) ensures RouteKnown(d, kind, source, targets) {
        assert RoutesKnown(d, kind);
      }
    }
  }

  lemma NothingRoutesFromStart(d: Declaration)
    requires EdgesLead(d)
    ensures !HasRouted(d.fanOutEdges, START) && !HasRouted(d.conditionalEdges, START)
    ensures !HasRouted(d.conditionalFanOutEdges, START)
  {
    forall i | 0 <= i < |d.fanOutEdges| ensures d.fanOutEdges[i].source != START {
      assert d.fanOutEdges[i] in d.fanOutEdges;
      assert Routes(d, FanOutKind, d.fanOutEdges[i].source, d.fanOutEdges[i].targets);
    }
    forall i | 0 <= i < |d.conditionalEdges| ensures d.conditionalEdges[i].source != START {
      assert d.conditionalEdges[i] in d.conditionalEdges;
      assert Routes(d, ConditionalKind, d.conditionalEdges[i].source, d.conditionalEdges[i].targets);
    }
    forall i | 0 <= i < |d.conditionalFanOutEdges| ensures d.conditionalFanOutEdges[i].source != START {
      assert d.conditionalFanOutEdges[i] in d.conditionalFanOutEdges;
      assert Routes(d, ConditionalFanOutKind, d.conditionalFanOutEdges[i].source, d.conditionalFanOutEdges[i].targets);
    }
  }

  lemma MisplacedIsJustified(d: Declaration)
    ensures forall id :: MisplacedMount(d, id) ==> Justified(d, SubgraphInParallelFrontier(id))
  {
  }

  lemma ItemsAreNotReserved(d: Declaration)
    requires ValidDeclaration(d)
    ensures forall id :: HasItem(d.items, id) ==> id != START && id != END
  {
  }
}
