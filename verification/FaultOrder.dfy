/** Which fault `compile` reports when a declaration has several: the first met by
    its passes over the declared edges and items
    (crates/group-agent-core/src/graph.rs:477-687). */
module FaultOrder {
  import opened Base
  import opened Paths
  import opened Declared
  import opened DeclarationMeaning

  // ---- one edge, one item ----

  predicate Known(d: Declaration, id: NodeId) { IsReserved(id) || HasItem(d.items, id) }

  ghost predicate FixedGoes(d: Declaration, e: FixedEdge) {
    Known(d, e.from) && Known(d, e.to) && e.to != START && e.from != END
  }

  /** What a fixed edge is reported for: its source first. */
  ghost predicate FixedEarns(d: Declaration, e: FixedEdge, fault: GraphCompileError) {
    match fault
    case UnknownNode(from, to, id) =>
      from == e.from && to == e.to && !Known(d, id) && (id == from || (id == to && Known(d, from)))
    case StartHasIncoming(from) => from == e.from && e.to == START && Known(d, from)
    case EndHasOutgoing(to) => to == e.to && e.from == END && Known(d, to) && to != START
    case _ => false
  }

  ghost predicate TargetGoes(d: Declaration, kind: RoutedKind, target: NodeId) {
    target == END
    || (target != START && HasItem(d.items, target) && (kind.ConditionalFanOutKind? ==> !IsMount(d.items, target)))
  }

  ghost predicate TargetEarns(d: Declaration, kind: RoutedKind, source: NodeId, target: NodeId,
                              fault: GraphCompileError)
  {
    match fault
    case StartHasIncoming(from) => from == source && target == START
    case UnknownTarget(k, s, t) => k == kind && s == source && t == target && !Known(d, target)
    case ConditionalFanOutTargetsSubgraph(s, t) =>
      kind.ConditionalFanOutKind? && s == source && t == target && !IsReserved(target) && IsMount(d.items, target)
    case _ => false
  }

  ghost predicate TargetReported(d: Declaration, kind: RoutedKind, source: NodeId, targets: seq<NodeId>, i: nat,
                                 fault: GraphCompileError)
  {
    && i < |targets| && TargetEarns(d, kind, source, targets[i], fault)
    && forall j :: 0 <= j < i ==> TargetGoes(d, kind, targets[j])
  }

  /** What a routed edge is reported for: its source, then its first bad target. */
  ghost predicate RouteEarns(d: Declaration, kind: RoutedKind, source: NodeId, targets: seq<NodeId>,
                             fault: GraphCompileError)
  {
    match fault
    case StartHasRouting(k) => k == kind && source == START
    case EndHasRouting(k) => k == kind && source == END
    case UnknownSource(k, s) => k == kind && s == source && !Known(d, source)
    case _ =>
      !IsReserved(source) && Known(d, source) && exists i: nat :: TargetReported(d, kind, source, targets, i, fault)
  }

  /** What an item is reported for: its fixed edges first. */
  ghost predicate ItemEarns(d: Declaration, id: NodeId, fault: GraphCompileError) {
    var fixed, all := multiset(FixedSources(d.fixedEdges))[id], multiset(Sources(d))[id];
    match fault
    case MultipleOutgoingEdges(n, count) => n == id && count == fixed && fixed > 1
    case MixedOutgoingEdgeKinds(n) => n == id && fixed <= 1 && all > 1
    case _ => false
  }

  // ---- the passes ----

  ghost predicate FixedReported(d: Declaration, i: nat, fault: GraphCompileError) {
    && i < |d.fixedEdges| && FixedEarns(d, d.fixedEdges[i], fault)
    && forall j :: 0 <= j < i ==> FixedGoes(d, d.fixedEdges[j])
  }

  ghost predicate AllFixedGo(d: Declaration) { forall j :: 0 <= j < |d.fixedEdges| ==> FixedGoes(d, d.fixedEdges[j]) }

  ghost predicate RouteReported<R>(d: Declaration, kind: RoutedKind, edges: seq<Routed<R>>, i: nat,
                                   fault: GraphCompileError)
  {
    && i < |edges| && RouteEarns(d, kind, edges[i].source, edges[i].targets, fault)
    && forall j :: 0 <= j < i ==> RouteKnown(d, kind, edges[j].source, edges[j].targets)
  }

  ghost predicate AllRoutesKnown<R>(d: Declaration, kind: RoutedKind, edges: seq<Routed<R>>) {
    forall j :: 0 <= j < |edges| ==> RouteKnown(d, kind, edges[j].source, edges[j].targets)
  }

  /** Fixed edges, conditional edges, fan-outs, conditional fan-outs, each in the
      order they were declared. */
  ghost predicate EdgeReported(d: Declaration, fault: GraphCompileError) {
    if !AllFixedGo(d) then exists i: nat :: FixedReported(d, i, fault)
    else if !AllRoutesKnown(d, ConditionalKind, d.conditionalEdges) then
      exists i: nat :: RouteReported(d, ConditionalKind, d.conditionalEdges, i, fault)
    else if !AllRoutesKnown(d, FanOutKind, d.fanOutEdges) then
      exists i: nat :: RouteReported(d, FanOutKind, d.fanOutEdges, i, fault)
    else exists i: nat :: RouteReported(d, ConditionalFanOutKind, d.conditionalFanOutEdges, i, fault)
  }

  ghost predicate ItemReported(d: Declaration, k: nat, fault: GraphCompileError) {
    && k < |d.items| && ItemEarns(d, d.items[k].id, fault)
    && forall j :: 0 <= j < k ==> multiset(Sources(d))[d.items[j].id] <= 1
  }

  /** START, then the items in order. */
  ghost predicate ShapeReported(d: Declaration, fault: GraphCompileError) {
    var starts := multiset(FixedSources(d.fixedEdges))[START];
    if starts == 0 then fault == MissingStartEdge
    else if starts > 1 then fault == MultipleStartEdges(starts)
    else exists k: nat :: ItemReported(d, k, fault)
  }

  ghost predicate UnreachedReported(d: Declaration, k: nat, fault: GraphCompileError) {
    && k < |d.items| && !Reachable(d, d.items[k].id) && fault == UnreachableNode(d.items[k].id)
    && forall j :: 0 <= j < k ==> Reachable(d, d.items[j].id)
  }

  ghost predicate DeadEndReported(d: Declaration, k: nat, fault: GraphCompileError) {
    && k < |d.items| && multiset(Sources(d))[d.items[k].id] == 0 && fault == MissingOutgoingEdge(d.items[k].id)
    && forall j :: 0 <= j < k ==> multiset(Sources(d))[d.items[j].id] > 0
  }

  /** Unreachable items, items without an edge, END. */
  ghost predicate ReachReported(d: Declaration, fault: GraphCompileError) {
    if exists k :: 0 <= k < |d.items| && !Reachable(d, d.items[k].id) then
      exists k: nat :: UnreachedReported(d, k, fault)
    else if exists k :: 0 <= k < |d.items| && multiset(Sources(d))[d.items[k].id] == 0 then
      exists k: nat :: DeadEndReported(d, k, fault)
    else fault == NoReachableEnd
  }

  /** Edges, then shapes, then reachability. */
  ghost predicate Reported(d: Declaration, fault: GraphCompileError) {
    if !EdgesLead(d) then EdgeReported(d, fault)
    else if !ShapesFit(d) then ShapeReported(d, fault)
    else ReachReported(d, fault)
  }

  // ---- proof ----

  lemma {:induction false} FirstFaultIsFirst(faults: seq<Option<GraphCompileError>>) returns (k: nat)
    requires FirstFault(faults).Some?
    ensures k < |faults| && faults[k] == FirstFault(faults) && forall j :: 0 <= j < k ==> faults[j].None?
  {
    if faults[0].Some? {
      k := 0;
    } else {
      k := FirstFaultIsFirst(faults[1..]);
      k := k + 1;
      assert forall j :: 0 < j < k ==> faults[j] == faults[1..][j - 1];
    }
  }

  lemma FixedFaultEarned(d: Declaration, e: FixedEdge)
    ensures FixedFault(d, e).None? <==> FixedGoes(d, e)
    ensures FixedFault(d, e).Some? ==> FixedEarns(d, e, FixedFault(d, e).value)
  {
  }

  lemma TargetFaultEarned(d: Declaration, kind: RoutedKind, source: NodeId, target: NodeId)
    ensures TargetFault(d, kind, source, target).None? <==> TargetGoes(d, kind, target)
    ensures TargetFault(d, kind, source, target).Some? ==>
              TargetEarns(d, kind, source, target, TargetFault(d, kind, source, target).value)
  {
    StartIsNotEnd();
  }

  lemma RoutedFaultEarned(d: Declaration, kind: RoutedKind, source: NodeId, targets: seq<NodeId>)
    ensures RoutedFault(d, kind, source, targets).None? <==> RouteKnown(d, kind, source, targets)
    ensures RoutedFault(d, kind, source, targets).Some? ==>
              RouteEarns(d, kind, source, targets, RoutedFault(d, kind, source, targets).value)
  {
    hide FirstFault, TargetGoes, TargetEarns, TargetFault;
    var faults := TargetFaults(d, kind, source, targets);
    FirstFaultMeans(faults);
    forall i | 0 <= i < |targets|
      ensures faults[i].None? <==> TargetGoes(d, kind, targets[i])
      ensures faults[i].Some? ==> TargetEarns(d, kind, source, targets[i], faults[i].value)
    {
      TargetFaultEarned(d, kind, source, targets[i]);
    }
    TargetsGoTogether(d, kind, targets);
    if FirstFault(faults).Some? {
      var k := FirstFaultIsFirst(faults);
      assert TargetReported(d, kind, source, targets, k, faults[k].value);
      if !IsReserved(source) && HasItem(d.items, source) {
        NotAboutSource(d, kind, source, targets, k, faults[k].value);
      }
    }
  }

  lemma TargetsGoTogether(d: Declaration, kind: RoutedKind, targets: seq<NodeId>)
    ensures (forall i :: 0 <= i < |targets| ==> TargetGoes(d, kind, targets[i])) <==>
            forall t :: t in targets && t != END ==>
              t != START && HasItem(d.items, t) && (kind.ConditionalFanOutKind? ==> !IsMount(d.items, t))
  {
    hide HasItem, IsMount;
    var all := forall i :: 0 <= i < |targets| ==> TargetGoes(d, kind, targets[i]);
    forall t | t in targets ensures all ==> TargetGoes(d, kind, t) {
      var i :| 0 <= i < |targets| && targets[i] == t;
    }
    forall i | 0 <= i < |targets|
      ensures (forall t :: t in targets && t != END ==>
                 t != START && HasItem(d.items, t) && (kind.ConditionalFanOutKind? ==> !IsMount(d.items, t)))
              ==> TargetGoes(d, kind, targets[i])
    {
      assert targets[i] in targets;
    }
  }

  lemma NotAboutSource(d: Declaration, kind: RoutedKind, source: NodeId, targets: seq<NodeId>, k: nat,
                       fault: GraphCompileError)
    requires TargetReported(d, kind, source, targets, k, fault) && !IsReserved(source) && HasItem(d.items, source)
    ensures RouteEarns(d, kind, source, targets, fault)
  {
    hide TargetGoes;
  }

  lemma FixedPass(d: Declaration)
    ensures FirstFault(FixedFaults(d)).None? <==> AllFixedGo(d)
    ensures FirstFault(FixedFaults(d)).Some? ==>
              exists i: nat :: FixedReported(d, i, FirstFault(FixedFaults(d)).value)
  {
    hide FirstFault, FixedGoes, FixedEarns, FixedFault;
    var faults := FixedFaults(d);
    FirstFaultMeans(faults);
    forall i | 0 <= i < |faults|
      ensures faults[i].None? <==> FixedGoes(d, d.fixedEdges[i])
      ensures faults[i].Some? ==> FixedEarns(d, d.fixedEdges[i], faults[i].value)
    {
      FixedFaultEarned(d, d.fixedEdges[i]);
    }
    if FirstFault(faults).Some? {
      var k := FirstFaultIsFirst(faults);
      assert FixedReported(d, k, faults[k].value);
    }
  }

  lemma RoutedPass<R>(d: Declaration, kind: RoutedKind, edges: seq<Routed<R>>)
    ensures FirstFault(RoutedFaults(d, kind, edges)).None? <==> AllRoutesKnown(d, kind, edges)
    ensures FirstFault(RoutedFaults(d, kind, edges)).Some? ==>
              exists i: nat :: RouteReported(d, kind, edges, i, FirstFault(RoutedFaults(d, kind, edges)).value)
  {
    hide FirstFault, RouteKnown, RouteEarns, RoutedFault;
    var faults := RoutedFaults(d, kind, edges);
    FirstFaultMeans(faults);
    forall i | 0 <= i < |faults|
      ensures faults[i].None? <==> RouteKnown(d, kind, edges[i].source, edges[i].targets)
      ensures faults[i].Some? ==> RouteEarns(d, kind, edges[i].source, edges[i].targets, faults[i].value)
    {
      RoutedFaultEarned(d, kind, edges[i].source, edges[i].targets);
    }
    if FirstFault(faults).Some? {
      var k := FirstFaultIsFirst(faults);
      assert RouteReported(d, kind, edges, k, faults[k].value);
    }
  }

  lemma EdgePass(d: Declaration)
    ensures EdgeFault(d).Some? ==> EdgeReported(d, EdgeFault(d).value)
  {
    hide FirstFault, AllFixedGo, AllRoutesKnown, FixedReported, RouteReported;
    FixedPass(d);
    RoutedPass(d, ConditionalKind, d.conditionalEdges);
    RoutedPass(d, FanOutKind, d.fanOutEdges);
    RoutedPass(d, ConditionalFanOutKind, d.conditionalFanOutEdges);
  }

  lemma ShapePass(d: Declaration)
    requires ValidDeclaration(d)
    ensures ShapeFault(d).Some? ==> ShapeReported(d, ShapeFault(d).value)
  {
    hide Sources, CountFrom, FirstFault, ValidDeclaration, FixedSources;
    SourceCounts(d, START);
    var faults := ItemShapeFaults(d);
    forall k | 0 <= k < |d.items|
      ensures faults[k].None? <==> multiset(Sources(d))[d.items[k].id] <= 1
      ensures faults[k].Some? ==> ItemEarns(d, d.items[k].id, faults[k].value)
    {
      SourceCounts(d, d.items[k].id);
    }
    if StartFault(d).None? && FirstFault(faults).Some? {
      var k := FirstFaultIsFirst(faults);
      assert ItemReported(d, k, faults[k].value);
    }
  }

  lemma ReachPass(d: Declaration)
    requires ValidDeclaration(d)
    ensures ReachabilityFault(d).Some? ==> ReachReported(d, ReachabilityFault(d).value)
  {
    hide Sources, FirstFault, ValidDeclaration, Reachable, HasOutgoing;
    FirstFaultMeans(UnreachableFaults(d));
    FirstFaultMeans(MissingFaults(d));
    forall k | 0 <= k < |d.items| ensures HasOutgoing(d, d.items[k].id) <==> multiset(Sources(d))[d.items[k].id] > 0 {
      OutgoingCounts(d, d.items[k].id);
    }
    if FirstFault(UnreachableFaults(d)).Some? {
      var k := FirstFaultIsFirst(UnreachableFaults(d));
      assert UnreachedReported(d, k, UnreachableNode(d.items[k].id));
    } else if FirstFault(MissingFaults(d)).Some? {
      var k := FirstFaultIsFirst(MissingFaults(d));
      assert DeadEndReported(d, k, MissingOutgoingEdge(d.items[k].id));
    }
  }

  /** Of all the faults of a declaration the one reported is the first. */
  lemma FirstIsReported(d: Declaration)
    requires ValidDeclaration(d)
    ensures DeclarationFault(d).Some? ==> Reported(d, DeclarationFault(d).value)
  {
    hide EdgeFault, ShapeFault, ReachabilityFault, EdgesLead, ShapesFit, ValidDeclaration, EdgeReported, ShapeReported,
         ReachReported, Justified;
    EdgeMeans(d);
    ShapeMeans(d);
    EdgePass(d);
    ShapePass(d);
    ReachPass(d);
  }
}
