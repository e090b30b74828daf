/** The validation passes of `compile` as they run: edge aggregation, edge
    shapes and reachability (crates/group-agent-core/src/graph.rs:478-687). */
module Validation {
  import opened Base
  import opened Paths
  import opened Declared

  datatype FixedOutgoing = FixedOutgoing(count: nat, successor: NodeId)

  datatype EdgeAggregation = EdgeAggregation(
    fixedBySource: map<NodeId, FixedOutgoing>,
    fanOutBySource: map<NodeId, FanOutEdge>,
    conditionalBySource: map<NodeId, ConditionalEdge>,
    conditionalFanOutBySource: map<NodeId, ConditionalFanOutEdge>)

  ghost predicate FixedAggregated(edges: seq<FixedEdge>, m: map<NodeId, FixedOutgoing>) {
    forall id :: (id in m <==> CountFrom(edges, id) > 0)
                 && (id in m ==> m[id] == FixedOutgoing(CountFrom(edges, id), FirstTo(edges, id)))
  }

  ghost predicate RoutedAggregated<R>(edges: seq<Routed<R>>, m: map<NodeId, Routed<R>>) {
    && (forall e :: e in edges ==> e.source in m)
    && (forall id :: id in m ==> m[id].source == id && m[id] in edges)
  }

  ghost predicate Aggregates(d: Declaration, agg: EdgeAggregation) {
    && FixedAggregated(d.fixedEdges, agg.fixedBySource)
    && RoutedAggregated(d.fanOutEdges, agg.fanOutBySource)
    && RoutedAggregated(d.conditionalEdges, agg.conditionalBySource)
    && RoutedAggregated(d.conditionalFanOutEdges, agg.conditionalFanOutBySource)
  }

  // ---- aggregate_edges ----

  lemma NothingAggregated<R>()
    ensures FixedAggregated([], map[]) && RoutedAggregated<R>([], map[])
  {
  }

  lemma OneMoreFixed(edges: seq<FixedEdge>, m: map<NodeId, FixedOutgoing>, edge: FixedEdge)
    requires FixedAggregated(edges, m)
    ensures FixedAggregated(edges + [edge],
              if edge.from in m then m[edge.from := m[edge.from].(count := m[edge.from].count + 1)]
              else m[edge.from := FixedOutgoing(1, edge.to)])
  {
    assert (edges + [edge])[..|edges|] == edges;
  }

  lemma OneMoreRouted<R>(edges: seq<Routed<R>>, m: map<NodeId, Routed<R>>, edge: Routed<R>)
    requires RoutedAggregated(edges, m)
    ensures RoutedAggregated(edges + [edge], m[edge.source := edge])
  {
  }

  method AggregateFixed(d: Declaration) returns (r: Result<map<NodeId, FixedOutgoing>, GraphCompileError>)
    ensures match FirstFault(FixedFaults(d))
            case Some(fault) => r == Err(fault)
            case None => r.Ok? && FixedAggregated(d.fixedEdges, r.value)
  {
    hide FirstFault, FixedFault, FixedAggregated;
    NothingAggregated<nat>();
    var m := map[];
    assert d.fixedEdges[..0] == [];
    for i := 0 to |d.fixedEdges|
      invariant forall k :: 0 <= k < i ==> FixedFaults(d)[k].None?
      invariant FixedAggregated(d.fixedEdges[..i], m)
    {
      var edge := d.fixedEdges[i];
      FirstFaultAt(FixedFaults(d), i);
      var fault := FixedFault(d, edge);
      if fault.Some? { return Err(fault.value); }
      assert d.fixedEdges[..i + 1] == d.fixedEdges[..i] + [edge];
      OneMoreFixed(d.fixedEdges[..i], m, edge);
      if edge.from in m {
        m := m[edge.from := m[edge.from].(count := m[edge.from].count + 1)];
      } else {
        m := m[edge.from := FixedOutgoing(1, edge.to)];
      }
    }
    FirstFaultAt(FixedFaults(d), |d.fixedEdges|);
    assert d.fixedEdges[..|d.fixedEdges|] == d.fixedEdges;
    r := Ok(m);
  }

  method CheckRouted(d: Declaration, kind: RoutedKind, source: NodeId, targets: seq<NodeId>)
    returns (fault: Option<GraphCompileError>)
    ensures fault == RoutedFault(d, kind, source, targets)
  {
    if source == START { return Some(StartHasRouting(kind)); }
    if source == END { return Some(EndHasRouting(kind)); }
    if !HasItem(d.items, source) { return Some(UnknownSource(kind, source)); }
    for i := 0 to |targets|
      invariant forall k :: 0 <= k < i ==> TargetFaults(d, kind, source, targets)[k].None?
    {
      FirstFaultAt(TargetFaults(d, kind, source, targets), i);
      fault := TargetFault(d, kind, source, targets[i]);
      if fault.Some? { return; }
    }
    FirstFaultAt(TargetFaults(d, kind, source, targets), |targets|);
    fault := None;
  }

  method AggregateRouted<R>(d: Declaration, kind: RoutedKind, edges: seq<Routed<R>>)
    returns (r: Result<map<NodeId, Routed<R>>, GraphCompileError>)
    ensures match FirstFault(RoutedFaults(d, kind, edges))
            case Some(fault) => r == Err(fault)
            case None => r.Ok? && RoutedAggregated(edges, r.value)
  {
    hide FirstFault, RoutedFault, RoutedAggregated;
    NothingAggregated<R>();
    var m := map[];
    assert edges[..0] == [];
    for i := 0 to |edges|
      invariant forall k :: 0 <= k < i ==> RoutedFaults(d, kind, edges)[k].None?
      invariant RoutedAggregated(edges[..i], m)
    {
      var edge := edges[i];
      FirstFaultAt(RoutedFaults(d, kind, edges), i);
      var fault := CheckRouted(d, kind, edge.source, edge.targets);
      if fault.Some? { return Err(fault.value); }
      assert edges[..i + 1] == edges[..i] + [edge];
      OneMoreRouted(edges[..i], m, edge);
      m := m[edge.source := edge];
    }
    FirstFaultAt(RoutedFaults(d, kind, edges), |edges|);
    assert edges[..|edges|] == edges;
    r := Ok(m);
  }

  /** Groups every edge by its source, or reports the first faulty edge. */
  method AggregateEdges(d: Declaration) returns (r: Result<EdgeAggregation, GraphCompileError>)
    ensures match EdgeFault(d)
            case Some(fault) => r == Err(fault)
            case None => r.Ok? && Aggregates(d, r.value)
  {
    var fixedEdges := AggregateFixed(d);
    if fixedEdges.Err? { return Err(fixedEdges.error); }
    var conditional := AggregateRouted(d, ConditionalKind, d.conditionalEdges);
    if conditional.Err? { return Err(conditional.error); }
    var fanOut := AggregateRouted(d, FanOutKind, d.fanOutEdges);
    if fanOut.Err? { return Err(fanOut.error); }
    var conditionalFanOut := AggregateRouted(d, ConditionalFanOutKind, d.conditionalFanOutEdges);
    if conditionalFanOut.Err? { return Err(conditionalFanOut.error); }
    r := Ok(EdgeAggregation(fixedEdges.value, fanOut.value, conditional.value, conditionalFanOut.value));
  }

  // ---- validate_edge_shapes ----

  lemma AggregationCounts(d: Declaration, agg: EdgeAggregation, id: NodeId)
    requires Aggregates(d, agg)
    ensures CountFrom(d.fixedEdges, id) == if id in agg.fixedBySource then agg.fixedBySource[id].count else 0
    ensures id in agg.fanOutBySource <==> HasRouted(d.fanOutEdges, id)
    ensures id in agg.conditionalBySource <==> HasRouted(d.conditionalEdges, id)
    ensures id in agg.conditionalFanOutBySource <==> HasRouted(d.conditionalFanOutEdges, id)
  {
  }

  method ValidateEdgeShapes(d: Declaration, agg: EdgeAggregation) returns (fault: Option<GraphCompileError>)
    requires Aggregates(d, agg)
    ensures fault == ShapeFault(d)
  {
    AggregationCounts(d, agg, START);
    var startCount := if START in agg.fixedBySource then agg.fixedBySource[START].count else 0;
    if startCount == 0 { return Some(MissingStartEdge); }
    if startCount != 1 { return Some(MultipleStartEdges(startCount)); }
    for i := 0 to |d.items|
      invariant forall k :: 0 <= k < i ==> ItemShapeFaults(d)[k].None?
    {
      var id := d.items[i].id;
      AggregationCounts(d, agg, id);
      FirstFaultAt(ItemShapeFaults(d), i);
      var fixedCount := if id in agg.fixedBySource then agg.fixedBySource[id].count else 0;
      if fixedCount > 1 { return Some(MultipleOutgoingEdges(id, fixedCount)); }
      var kindCount := One(fixedCount == 1) + One(id in agg.fanOutBySource) + One(id in agg.conditionalBySource)
                       + One(id in agg.conditionalFanOutBySource);
      if kindCount > 1 { return Some(MixedOutgoingEdgeKinds(id)); }
    }
    FirstFaultAt(ItemShapeFaults(d), |d.items|);
    fault := None;
  }

  // ---- validate_reachability ----

  ghost function KnownIds(d: Declaration): set<NodeId> {
    (set k | 0 <= k < |d.items| :: d.items[k].id) + {START, END}
  }

  method RoutedFrom<R>(edges: seq<Routed<R>>, from: NodeId) returns (targets: seq<NodeId>)
    ensures forall t :: t in targets <==> RoutedLeads(edges, from, t)
  {
    targets := [];
    for i := 0 to |edges|
      invariant forall t :: t in targets <==> RoutedLeads(edges[..i], from, t)
    {
      assert edges[..i + 1] == edges[..i] + [edges[i]];
      if edges[i].source == from { targets := targets + edges[i].targets; }
    }
    assert edges[..|edges|] == edges;
  }

  /** The out-edges the topology holds for one identifier. */
  method LeadsFrom(d: Declaration, from: NodeId) returns (targets: seq<NodeId>)
    ensures forall t :: t in targets <==> Leads(d, from, t)
  {
    targets := [];
    for i := 0 to |d.fixedEdges|
      invariant forall t :: t in targets <==> FixedEdge(from, t) in d.fixedEdges[..i]
    {
      assert d.fixedEdges[..i + 1] == d.fixedEdges[..i] + [d.fixedEdges[i]];
      if d.fixedEdges[i].from == from { targets := targets + [d.fixedEdges[i].to]; }
    }
    assert d.fixedEdges[..|d.fixedEdges|] == d.fixedEdges;
    var fanOut := RoutedFrom(d.fanOutEdges, from);
    var conditional := RoutedFrom(d.conditionalEdges, from);
    var conditionalFanOut := RoutedFrom(d.conditionalFanOutEdges, from);
    targets := targets + fanOut + conditional + conditionalFanOut;
  }

  lemma LeadsExtendsReach(d: Declaration, from: NodeId, to: NodeId)
    requires Reachable(d, from) && Leads(d, from, to)
    ensures Reachable(d, to)
  {
    var length: nat :| ReachableIn(d, length, from);
    assert ReachableIn(d, length + 1, to);
  }

  lemma {:induction false} ClosedSetsReach(d: Declaration, closed: set<NodeId>, length: nat, id: NodeId)
    requires START in closed
    requires forall a, b :: a in closed && Leads(d, a, b) ==> b in closed
    requires ReachableIn(d, length, id)
    ensures id in closed
    decreases length
  {
    if id != START {
      var p :| ReachableIn(d, length - 1, p) && Leads(d, p, id);
      ClosedSetsReach(d, closed, length - 1, p);
    }
  }

  /** Marks the unseen targets of one visited identifier. */
  method Visit(d: Declaration, from: NodeId, reached: set<NodeId>, work: seq<NodeId>)
    returns (reached': set<NodeId>, work': seq<NodeId>)
    ensures forall id :: id in reached' <==> id in reached || Leads(d, from, id)
    ensures forall id :: id in work' <==> id in work || (id in reached' && id !in reached)
    ensures reached' == reached ==> work' == work
  {
    var targets := LeadsFrom(d, from);
    reached', work' := reached, work;
    for i := 0 to |targets|
      invariant forall id :: id in reached' <==> id in reached || id in targets[..i]
      invariant forall id :: id in work' <==> id in work || (id in reached' && id !in reached)
      invariant reached' == reached ==> work' == work
    {
      assert targets[..i + 1] == targets[..i] + [targets[i]];
      if targets[i] !in reached' {
        reached' := reached' + {targets[i]};
        work' := work' + [targets[i]];
      }
    }
    assert targets[..|targets|] == targets;
  }

  /** The search from START visits exactly the reachable identifiers. */
  method SearchFromStart(d: Declaration) returns (reached: set<NodeId>)
    requires EdgeFault(d).None?
    ensures forall id :: id in reached <==> Reachable(d, id)
  {
    reached := {START};
    var work := [START];
    ghost var done := {};
    assert ReachableIn(d, 0, START);
    while work != []
      invariant START in reached && reached <= KnownIds(d)
      invariant forall id :: id in reached ==> Reachable(d, id)
      invariant forall id :: id in reached ==> id in done || id in work
      invariant forall id :: id in work ==> id in reached
      invariant forall a, b :: a in done && Leads(d, a, b) ==> b in reached
      decreases |KnownIds(d) - reached|, |work|
    {
      var last, rest := work[|work| - 1], work[..|work| - 1];
      assert work == rest + [last];
      ghost var before := reached;
      reached, work := Visit(d, last, reached, rest);
      forall id | id in reached ensures Reachable(d, id) && id in KnownIds(d) {
        if id !in before {
          LeadsIsKnown(d, last, id);
          LeadsExtendsReach(d, last, id);
        }
      }
      done := done + {last};
      if reached != before {
        SmallerSet(KnownIds(d) - reached, KnownIds(d) - before);
      }
    }
    forall id | Reachable(d, id) ensures id in reached {
      var length: nat :| ReachableIn(d, length, id);
      ClosedSetsReach(d, reached, length, id);
    }
  }

  lemma SmallerSet<T>(a: set<T>, b: set<T>)
    requires a < b
    ensures |a| < |b|
  {
    var x :| x in b && x !in a;
    assert a <= b - {x};
    SubsetSize(a, b - {x});
  }

  lemma {:induction false} SubsetSize<T>(a: set<T>, b: set<T>)
    requires a <= b
    ensures |a| <= |b|
  {
    if a != {} {
      var x :| x in a;
      SubsetSize(a - {x}, b - {x});
    }
  }

  method FindUnreachable(d: Declaration, reached: set<NodeId>) returns (fault: Option<GraphCompileError>)
    requires forall id :: id in reached <==> Reachable(d, id)
    ensures fault == FirstFault(UnreachableFaults(d))
  {
    for i := 0 to |d.items|
      invariant forall k :: 0 <= k < i ==> UnreachableFaults(d)[k].None?
    {
      FirstFaultAt(UnreachableFaults(d), i);
      if d.items[i].id !in reached { return Some(UnreachableNode(d.items[i].id)); }
    }
    FirstFaultAt(UnreachableFaults(d), |d.items|);
    fault := None;
  }

  method FindMissing(d: Declaration, agg: EdgeAggregation) returns (fault: Option<GraphCompileError>)
    requires Aggregates(d, agg)
    ensures fault == FirstFault(MissingFaults(d))
  {
    for i := 0 to |d.items|
      invariant forall k :: 0 <= k < i ==> MissingFaults(d)[k].None?
    {
      var id := d.items[i].id;
      AggregationCounts(d, agg, id);
      FirstFaultAt(MissingFaults(d), i);
      if id !in agg.fixedBySource && id !in agg.fanOutBySource && id !in agg.conditionalBySource
         && id !in agg.conditionalFanOutBySource
      {
        return Some(MissingOutgoingEdge(id));
      }
    }
    FirstFaultAt(MissingFaults(d), |d.items|);
    fault := None;
  }

  method ValidateReachability(d: Declaration, agg: EdgeAggregation) returns (fault: Option<GraphCompileError>)
    requires EdgeFault(d).None? && Aggregates(d, agg)
    ensures fault == ReachabilityFault(d)
  {
    var reached := SearchFromStart(d);
    fault := FindUnreachable(d, reached);
    if fault.Some? { return; }
    fault := FindMissing(d, agg);
    if fault.Some? { return; }
    if END !in reached { return Some(NoReachableEnd); }
  }
}
