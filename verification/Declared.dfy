/** A declared graph and the checks `compile` makes before flattening
    (crates/group-agent-core/src/graph.rs:363-364, 478-687). */
module Declared {
  import opened Base
  import opened Paths
  import opened Transitions
  import opened Compiled

  datatype FixedEdge = FixedEdge(from: NodeId, to: NodeId)
  /** A routed edge; only the conditional kinds carry a router. */
  datatype Routed<+R> = Routed(source: NodeId, targets: seq<NodeId>, router: R)

  type FanOutEdge = Routed<()>
  type ConditionalEdge = Routed<Router>
  type ConditionalFanOutEdge = Routed<FanOutRouter>

  datatype DeclaredItem = NodeItem(kind: NodeKind) | SubgraphItem(graph: CompiledGraph)
  datatype Declared = Declared(id: NodeId, item: DeclaredItem)

  datatype Declaration = Declaration(
    items: seq<Declared>,
    fixedEdges: seq<FixedEdge>,
    fanOutEdges: seq<FanOutEdge>,
    conditionalEdges: seq<ConditionalEdge>,
    conditionalFanOutEdges: seq<ConditionalFanOutEdge>,
    version: Option<GraphVersion>)

  datatype RoutedKind = ConditionalKind | FanOutKind | ConditionalFanOutKind

  datatype GraphCompileError =
    | UnknownNode(from: NodeId, to: NodeId, id: NodeId)
    | StartHasIncoming(from: NodeId)
    | EndHasOutgoing(to: NodeId)
    | StartHasRouting(kind: RoutedKind)
    | EndHasRouting(kind: RoutedKind)
    | UnknownSource(kind: RoutedKind, source: NodeId)
    | UnknownTarget(kind: RoutedKind, source: NodeId, target: NodeId)
    | ConditionalFanOutTargetsSubgraph(source: NodeId, target: NodeId)
    | MissingStartEdge
    | MultipleStartEdges(count: nat)
    | MultipleOutgoingEdges(id: NodeId, count: nat)
    | MixedOutgoingEdgeKinds(id: NodeId)
    | UnreachableNode(id: NodeId)
    | MissingOutgoingEdge(id: NodeId)
    | NoReachableEnd
    | SubgraphInParallelFrontier(id: NodeId)
    | DuplicateNodePath(path: NodePath)

  // ---- declarations the builder can produce ----

  predicate HasItem(items: seq<Declared>, id: NodeId) {
    exists k :: 0 <= k < |items| && items[k].id == id
  }

  predicate IsMount(items: seq<Declared>, id: NodeId) {
    exists k :: 0 <= k < |items| && items[k].id == id && items[k].item.SubgraphItem?
  }

  predicate DistinctItems(items: seq<Declared>) {
    forall i, j :: 0 <= i < j < |items| ==> items[i].id != items[j].id
  }

  ghost predicate DistinctSources<R>(edges: seq<Routed<R>>) {
    forall i, j :: 0 <= i < j < |edges| ==> edges[i].source != edges[j].source
  }

  /** What the builder methods keep: distinct unreserved identifiers, compiled
      children, and at most one edge of each routed kind per source, with
      distinct targets and a router with something to choose. */
  ghost predicate ValidDeclaration(d: Declaration) {
    && DistinctItems(d.items)
    && (forall k :: 0 <= k < |d.items| ==> !IsReserved(d.items[k].id))
    && (forall k :: 0 <= k < |d.items| && d.items[k].item.SubgraphItem? ==> WellFormed(d.items[k].item.graph))
    && DistinctSources(d.fanOutEdges)
    && DistinctSources(d.conditionalEdges)
    && DistinctSources(d.conditionalFanOutEdges)
    && (forall e :: e in d.fanOutEdges ==> DistinctIds(e.targets))
    && (forall e :: e in d.conditionalEdges ==> e.targets != [])
    && (forall e :: e in d.conditionalFanOutEdges ==> e.targets != [])
  }

  // ---- faults, in the order compile reports them ----

  function FirstFault(faults: seq<Option<GraphCompileError>>): Option<GraphCompileError> {
    if faults == [] then None else if faults[0].Some? then faults[0] else FirstFault(faults[1..])
  }

  lemma {:induction false} FirstFaultAt(faults: seq<Option<GraphCompileError>>, i: nat)
    requires i <= |faults| && forall k :: 0 <= k < i ==> faults[k].None?
    ensures i < |faults| && faults[i].Some? ==> FirstFault(faults) == faults[i]
    ensures i == |faults| ==> FirstFault(faults).None?
  {
    if i > 0 {
      FirstFaultAt(faults[1..], i - 1);
    }
  }

  lemma {:induction false} NoFirstFault(faults: seq<Option<GraphCompileError>>)
    requires FirstFault(faults).None?
    ensures forall k :: 0 <= k < |faults| ==> faults[k].None?
  {
    if faults != [] {
      NoFirstFault(faults[1..]);
      forall k | 0 <= k < |faults| ensures faults[k].None? {
        if k > 0 { assert faults[k] == faults[1..][k - 1]; }
      }
    }
  }

  function Else(first: Option<GraphCompileError>, second: Option<GraphCompileError>): Option<GraphCompileError> {
    if first.Some? then first else second
  }

  function FixedFault(d: Declaration, e: FixedEdge): Option<GraphCompileError> {
    if !IsReserved(e.from) && !HasItem(d.items, e.from) then Some(UnknownNode(e.from, e.to, e.from))
    else if !IsReserved(e.to) && !HasItem(d.items, e.to) then Some(UnknownNode(e.from, e.to, e.to))
    else if e.to == START then Some(StartHasIncoming(e.from))
    else if e.from == END then Some(EndHasOutgoing(e.to))
    else None
  }

  function TargetFault(d: Declaration, kind: RoutedKind, source: NodeId, target: NodeId): Option<GraphCompileError> {
    if target == START then Some(StartHasIncoming(source))
    else if target == END then None
    else if !HasItem(d.items, target) then Some(UnknownTarget(kind, source, target))
    else if kind.ConditionalFanOutKind? && IsMount(d.items, target) then
      Some(ConditionalFanOutTargetsSubgraph(source, target))
    else None
  }

  function TargetFaults(d: Declaration, kind: RoutedKind, source: NodeId, targets: seq<NodeId>)
    : (r: seq<Option<GraphCompileError>>)
    ensures |r| == |targets|
    ensures forall i :: 0 <= i < |targets| ==> r[i] == TargetFault(d, kind, source, targets[i])
  {
    seq(|targets|, i requires 0 <= i < |targets| => TargetFault(d, kind, source, targets[i]))
  }

  function RoutedFault(d: Declaration, kind: RoutedKind, source: NodeId, targets: seq<NodeId>)
    : Option<GraphCompileError>
  {
    if source == START then Some(StartHasRouting(kind))
    else if source == END then Some(EndHasRouting(kind))
    else if !HasItem(d.items, source) then Some(UnknownSource(kind, source))
    else FirstFault(TargetFaults(d, kind, source, targets))
  }

  function FixedFaults(d: Declaration): (r: seq<Option<GraphCompileError>>)
    ensures |r| == |d.fixedEdges|
    ensures forall i :: 0 <= i < |r| ==> r[i] == FixedFault(d, d.fixedEdges[i])
  {
    seq(|d.fixedEdges|, i requires 0 <= i < |d.fixedEdges| => FixedFault(d, d.fixedEdges[i]))
  }

  function RoutedFaults<R>(d: Declaration, kind: RoutedKind, edges: seq<Routed<R>>)
    : (r: seq<Option<GraphCompileError>>)
    ensures |r| == |edges|
    ensures forall i :: 0 <= i < |r| ==> r[i] == RoutedFault(d, kind, edges[i].source, edges[i].targets)
  {
    seq(|edges|, i requires 0 <= i < |edges| => RoutedFault(d, kind, edges[i].source, edges[i].targets))
  }

  function EdgeFault(d: Declaration): Option<GraphCompileError> {
    Else(FirstFault(FixedFaults(d)),
         Else(FirstFault(RoutedFaults(d, ConditionalKind, d.conditionalEdges)),
              Else(FirstFault(RoutedFaults(d, FanOutKind, d.fanOutEdges)),
                   FirstFault(RoutedFaults(d, ConditionalFanOutKind, d.conditionalFanOutEdges)))))
  }

  // ---- shapes ----

  function CountFrom(edges: seq<FixedEdge>, id: NodeId): nat {
    if edges == [] then 0 else CountFrom(edges[..|edges| - 1], id) + (if edges[|edges| - 1].from == id then 1 else 0)
  }

  /** The target of the earliest fixed edge from id. */
  function FirstTo(edges: seq<FixedEdge>, id: NodeId): NodeId
    requires CountFrom(edges, id) > 0
  {
    var shorter := edges[..|edges| - 1];
    if CountFrom(shorter, id) > 0 then FirstTo(shorter, id) else edges[|edges| - 1].to
  }

  predicate HasRouted<R>(edges: seq<Routed<R>>, id: NodeId) {
    exists i :: 0 <= i < |edges| && edges[i].source == id
  }

  function One(b: bool): nat { if b then 1 else 0 }

  function KindCount(d: Declaration, id: NodeId): nat {
    One(CountFrom(d.fixedEdges, id) == 1) + One(HasRouted(d.fanOutEdges, id))
    + One(HasRouted(d.conditionalEdges, id)) + One(HasRouted(d.conditionalFanOutEdges, id))
  }

  function ItemShapeFault(d: Declaration, id: NodeId): Option<GraphCompileError> {
    if CountFrom(d.fixedEdges, id) > 1 then Some(MultipleOutgoingEdges(id, CountFrom(d.fixedEdges, id)))
    else if KindCount(d, id) > 1 then Some(MixedOutgoingEdgeKinds(id))
    else None
  }

  function StartFault(d: Declaration): Option<GraphCompileError> {
    var count := CountFrom(d.fixedEdges, START);
    if count == 0 then Some(MissingStartEdge) else if count == 1 then None else Some(MultipleStartEdges(count))
  }

  function ItemShapeFaults(d: Declaration): (r: seq<Option<GraphCompileError>>)
    ensures |r| == |d.items|
    ensures forall i :: 0 <= i < |r| ==> r[i] == ItemShapeFault(d, d.items[i].id)
  {
    seq(|d.items|, i requires 0 <= i < |d.items| => ItemShapeFault(d, d.items[i].id))
  }

  function ShapeFault(d: Declaration): Option<GraphCompileError> {
    Else(StartFault(d), FirstFault(ItemShapeFaults(d)))
  }

  // ---- reachability ----

  ghost predicate RoutedLeads<R>(edges: seq<Routed<R>>, from: NodeId, to: NodeId) {
    exists e :: e in edges && e.source == from && to in e.targets
  }

  /** The topology: every declared target of every edge. */
  ghost predicate Leads(d: Declaration, from: NodeId, to: NodeId) {
    || FixedEdge(from, to) in d.fixedEdges
    || RoutedLeads(d.fanOutEdges, from, to)
    || RoutedLeads(d.conditionalEdges, from, to)
    || RoutedLeads(d.conditionalFanOutEdges, from, to)
  }

  ghost predicate ReachableIn(d: Declaration, length: nat, id: NodeId)
    decreases length
  {
    id == START || (length > 0 && exists p :: ReachableIn(d, length - 1, p) && Leads(d, p, id))
  }

  ghost predicate Reachable(d: Declaration, id: NodeId) {
    exists length: nat :: ReachableIn(d, length, id)
  }

  predicate HasOutgoing(d: Declaration, id: NodeId) {
    || CountFrom(d.fixedEdges, id) > 0
    || HasRouted(d.fanOutEdges, id)
    || HasRouted(d.conditionalEdges, id)
    || HasRouted(d.conditionalFanOutEdges, id)
  }

  ghost function UnreachableFaults(d: Declaration): (r: seq<Option<GraphCompileError>>)
    ensures |r| == |d.items|
    ensures forall i :: 0 <= i < |r| ==>
              r[i] == if Reachable(d, d.items[i].id) then None else Some(UnreachableNode(d.items[i].id))
  {
    seq(|d.items|, i requires 0 <= i < |d.items| =>
      if Reachable(d, d.items[i].id) then None else Some(UnreachableNode(d.items[i].id)))
  }

  function MissingFaults(d: Declaration): (r: seq<Option<GraphCompileError>>)
    ensures |r| == |d.items|
    ensures forall i :: 0 <= i < |r| ==>
              r[i] == if HasOutgoing(d, d.items[i].id) then None else Some(MissingOutgoingEdge(d.items[i].id))
  {
    seq(|d.items|, i requires 0 <= i < |d.items| =>
      if HasOutgoing(d, d.items[i].id) then None else Some(MissingOutgoingEdge(d.items[i].id)))
  }

  ghost function ReachabilityFault(d: Declaration): Option<GraphCompileError> {
    Else(FirstFault(UnreachableFaults(d)),
         Else(FirstFault(MissingFaults(d)), if Reachable(d, END) then None else Some(NoReachableEnd)))
  }

  /** The first fault of every check before the pair worklist. */
  ghost function DeclarationFault(d: Declaration): Option<GraphCompileError> {
    Else(EdgeFault(d), Else(ShapeFault(d), ReachabilityFault(d)))
  }

  // ---- what an accepted declaration looks like ----

  lemma RoutedLeadsIsKnown<R>(d: Declaration, kind: RoutedKind, edges: seq<Routed<R>>, from: NodeId, to: NodeId)
    requires FirstFault(RoutedFaults(d, kind, edges)).None? && RoutedLeads(edges, from, to)
    ensures HasItem(d.items, from) && !IsReserved(from)
    ensures to != START && (to != END ==> HasItem(d.items, to))
    ensures kind.ConditionalFanOutKind? ==> !(to != END && IsMount(d.items, to))
  {
    var e :| e in edges && e.source == from && to in e.targets;
    NoFirstFault(RoutedFaults(d, kind, edges));
    var i :| 0 <= i < |edges| && edges[i] == e;
    assert RoutedFaults(d, kind, edges)[i].None?;
    NoFirstFault(TargetFaults(d, kind, from, e.targets));
    var k :| 0 <= k < |e.targets| && e.targets[k] == to;
    assert TargetFaults(d, kind, from, e.targets)[k].None?;
  }

  /** Every edge of an accepted declaration runs between declared items, START
      and END, and nothing enters START or leaves END. */
  lemma LeadsIsKnown(d: Declaration, from: NodeId, to: NodeId)
    requires EdgeFault(d).None? && Leads(d, from, to)
    ensures from == START || HasItem(d.items, from)
    ensures to == END || HasItem(d.items, to)
    ensures from != END && to != START
  {
    if FixedEdge(from, to) in d.fixedEdges {
      NoFirstFault(FixedFaults(d));
      var i :| 0 <= i < |d.fixedEdges| && d.fixedEdges[i] == FixedEdge(from, to);
      assert FixedFaults(d)[i].None?;
    } else if RoutedLeads(d.fanOutEdges, from, to) {
      RoutedLeadsIsKnown(d, FanOutKind, d.fanOutEdges, from, to);
    } else if RoutedLeads(d.conditionalEdges, from, to) {
      RoutedLeadsIsKnown(d, ConditionalKind, d.conditionalEdges, from, to);
    } else {
      RoutedLeadsIsKnown(d, ConditionalFanOutKind, d.conditionalFanOutEdges, from, to);
    }
  }
}
