/** Filling the flat slots from a checked declaration
    (crates/group-agent-core/src/graph.rs:363-419). */
module Assembly {
  import opened Base
  import opened Paths
  import opened Transitions
  import opened Compiled
  import opened Declared
  import opened Validation
  import opened FrontierCheck
  import opened Flatten

  // ---- filling the slots ----

  ghost predicate SlotsGrow(slots: seq<Option<CompiledItem>>, slots': seq<Option<CompiledItem>>) {
    |slots| <= |slots'| && forall i :: 0 <= i < |slots| && slots[i].Some? ==> slots'[i] == slots[i]
  }

  ghost predicate ScopesGrow(exits: map<GraphPath, nat>, exits': map<GraphPath, nat>) {
    forall p :: p in exits ==> p in exits' && exits'[p] == exits[p]
  }

  lemma PlacedStays(d: Declaration, agg: EdgeAggregation, entries: map<NodeId, nat>,
                    slots: seq<Option<CompiledItem>>, exits: map<GraphPath, nat>,
                    slots': seq<Option<CompiledItem>>, exits': map<GraphPath, nat>, k: nat)
    requires k < |d.items| && Placed(d, agg, entries, slots, exits, k)
    requires SlotsGrow(slots, slots') && ScopesGrow(exits, exits')
    ensures Placed(d, agg, entries, slots', exits', k)
  {
  }

  /** Registered paths belong to the items already filled. */
  ghost predicate OwnedByEarlier(d: Declaration, paths: set<seq<NodeId>>, k: nat)
    requires k <= |d.items|
  {
    forall p :: p in paths ==> p != [] && exists j :: 0 <= j < k && d.items[j].id == p[0]
  }

  ghost predicate HeaderEmpty(d: Declaration, slots: seq<Option<CompiledItem>>, k: nat)
    requires k < |d.items|
  {
    && Slot(d.items, k) + Width(d.items[k]) <= |slots|
    && forall i :: Slot(d.items, k) <= i < Slot(d.items, k) + Width(d.items[k]) ==> slots[i].None?
  }

  /** The first k declared items are in place and the others are still empty. */
  ghost predicate FilledTo(d: Declaration, agg: EdgeAggregation, entries: map<NodeId, nat>,
                           slots: seq<Option<CompiledItem>>, nodePaths: map<NodePath, nat>,
                           exits: map<GraphPath, nat>, k: nat)
    requires k <= |d.items|
  {
    && |slots| == BlockBase(d.items, k)
    && (forall j :: 0 <= j < k ==> Placed(d, agg, entries, slots, exits, j))
    && (forall j :: k <= j < |d.items| ==> HeaderEmpty(d, slots, j))
    && NodePathsExact(slots, nodePaths) && ScopeExitsExact(slots, exits)
    && OwnedByEarlier(d, nodePaths.Keys, k) && OwnedByEarlier(d, exits.Keys, k)
  }

  ghost predicate Ready(d: Declaration, agg: EdgeAggregation, entries: map<NodeId, nat>) {
    && ValidDeclaration(d) && Aggregates(d, agg) && EntriesOf(d.items, entries)
    && EdgeFault(d).None? && ShapeFault(d).None? && ReachabilityFault(d).None?
  }

  lemma ReadyAggregates(d: Declaration, agg: EdgeAggregation, entries: map<NodeId, nat>)
    requires Ready(d, agg, entries)
    ensures Aggregates(d, agg)
  {
  }

  lemma LedToIsEntry(d: Declaration, agg: EdgeAggregation, entries: map<NodeId, nat>, id: NodeId, t: NodeId)
    requires Ready(d, agg, entries) && Leads(d, id, t) && t != END
    ensures t in entries
  {
    LeadsIsKnown(d, id, t);
    hide EdgeFault, ShapeFault, ReachabilityFault, ValidDeclaration, Aggregates, Leads;
    var k :| 0 <= k < |d.items| && d.items[k].id == t;
    assert EntryAt(d.items, entries, k);
  }

  lemma StoredTargetsAreKnown<R>(edges: seq<Routed<R>>, m: map<NodeId, Routed<R>>, entries: map<NodeId, nat>,
                                 id: NodeId)
    requires RoutedAggregated(edges, m)
    requires forall t :: RoutedLeads(edges, id, t) && t != END ==> t in entries
    ensures id in m ==> Targeted(m[id].targets, entries)
  {
    if id in m {
      assert m[id] in edges;
      forall t | t in m[id].targets && t != END ensures t in entries { assert RoutedLeads(edges, id, t); }
    }
  }

  lemma StoredIsTargeted(d: Declaration, agg: EdgeAggregation, entries: map<NodeId, nat>, id: NodeId)
    requires Ready(d, agg, entries)
    ensures StoredTargeted(agg, entries, id)
  {
    ReadyAggregates(d, agg, entries);
    hide Ready, EntriesOf, RoutedLeads, RoutedAggregated, Targeted, FixedAggregated;
    forall t | Leads(d, id, t) && t != END ensures t in entries { LedToIsEntry(d, agg, entries, id, t); }
    StoredTargetsAreKnown(d.fanOutEdges, agg.fanOutBySource, entries, id);
    StoredTargetsAreKnown(d.conditionalEdges, agg.conditionalBySource, entries, id);
    StoredTargetsAreKnown(d.conditionalFanOutEdges, agg.conditionalFanOutBySource, entries, id);
    StoredSuccessorIsKnown(d, agg, entries, id);
  }

  lemma StoredSuccessorIsKnown(d: Declaration, agg: EdgeAggregation, entries: map<NodeId, nat>, id: NodeId)
    requires FixedAggregated(d.fixedEdges, agg.fixedBySource)
    requires forall t :: Leads(d, id, t) && t != END ==> t in entries
    ensures id in agg.fixedBySource ==> Targeted([agg.fixedBySource[id].successor], entries)
  {
    hide RoutedLeads;
    if id in agg.fixedBySource {
      var successor := agg.fixedBySource[id].successor;
      FixedEdgesCount(d.fixedEdges, id, successor);
      assert Leads(d, id, successor);
    }
  }

  lemma TransitionExists(d: Declaration, agg: EdgeAggregation, entries: map<NodeId, nat>, k: nat)
    requires Ready(d, agg, entries) && k < |d.items|
    ensures StoredTargeted(agg, entries, d.items[k].id)
    ensures CompileTransition(agg, entries, d.items[k].id).Ok?
  {
    StoredIsTargeted(d, agg, entries, d.items[k].id);
    NoFirstFault(MissingFaults(d));
    assert MissingFaults(d)[k].None?;
    AggregationCounts(d, agg, d.items[k].id);
  }

  /** Filling an empty slot with a structural item keeps the path table exact,
      and with anything but an exit keeps the scope table exact. */
  lemma StructuralFillKeepsExact(slots: seq<Option<CompiledItem>>, index: nat, item: CompiledItem,
                                 nodePaths: map<NodePath, nat>, exits: map<GraphPath, nat>)
    requires index < |slots| && slots[index].None?
    ensures !item.Node? && NodePathsExact(slots, nodePaths) ==> NodePathsExact(slots[index := Some(item)], nodePaths)
    ensures !item.ExitSubgraph? && ScopeExitsExact(slots, exits) ==> ScopeExitsExact(slots[index := Some(item)], exits)
    ensures item.ExitSubgraph? && ScopeExitsExact(slots, exits) && item.graphPath !in exits ==>
              ScopeExitsExact(slots[index := Some(item)], exits[item.graphPath := index])
  {
  }

  lemma FreshPrefix(d: Declaration, paths: set<seq<NodeId>>, k: nat)
    requires k < |d.items| && DistinctItems(d.items) && OwnedByEarlier(d, paths, k)
    ensures forall p :: p in paths ==> !([d.items[k].id] <= p)
  {
  }

  method FillNode(builder: FlatBuilder, d: Declaration, ghost agg: EdgeAggregation, entries: map<NodeId, nat>,
                  transition: CompiledTransition, k: nat)
    requires k < |d.items| && d.items[k].item.NodeItem? && Ready(d, agg, entries)
    requires FilledTo(d, agg, entries, builder.items, builder.nodePaths, builder.scopeExits, k)
    requires StoredTargeted(agg, entries, d.items[k].id)
    requires CompileTransition(agg, entries, d.items[k].id) == Ok(transition)
    modifies builder
    ensures FilledTo(d, agg, entries, builder.items, builder.nodePaths, builder.scopeExits, k + 1)
  {
    hide *;
    var node := Node([d.items[k].id], ROOT, d.items[k].item.kind, transition);
    SlotIsFree(d, agg, entries, builder.items, builder.nodePaths, builder.scopeExits, k);
    NodeFilled(d, agg, entries, transition, k, builder.items, builder.nodePaths, builder.scopeExits);
    var fault := builder.PlaceItem(entries[d.items[k].id], node);
    assert fault.None?;
  }

  /** The k-th item's slots exist and are empty, and its path is unregistered. */
  lemma SlotIsFree(d: Declaration, agg: EdgeAggregation, entries: map<NodeId, nat>,
                   slots: seq<Option<CompiledItem>>, paths: map<NodePath, nat>, exits: map<GraphPath, nat>, k: nat)
    requires k < |d.items| && Ready(d, agg, entries) && FilledTo(d, agg, entries, slots, paths, exits, k)
    ensures d.items[k].id in entries && entries[d.items[k].id] == Slot(d.items, k)
    ensures Slot(d.items, k) + Width(d.items[k]) <= |slots|
    ensures Slot(d.items, k) < |slots| && slots[Slot(d.items, k)].None?
    ensures d.items[k].item.SubgraphItem? ==>
              Slot(d.items, k) + 1 < |slots| && slots[Slot(d.items, k) + 1].None?
    ensures NodePathsExact(slots, paths) && ScopeExitsExact(slots, exits)
    ensures |slots| == BlockBase(d.items, k)
    ensures forall p :: p in paths ==> !([d.items[k].id] <= p)
    ensures forall p :: p in exits ==> !([d.items[k].id] <= p)
    ensures d.items[k].item.SubgraphItem? ==> WellFormed(d.items[k].item.graph)
  {
    hide NodePathsExact, ScopeExitsExact, WellFormed, Placed, EdgeFault, ShapeFault, ReachabilityFault;
    assert HeaderEmpty(d, slots, k) && EntryAt(d.items, entries, k);
    FreshPrefix(d, paths.Keys, k);
    FreshPrefix(d, exits.Keys, k);
  }

  lemma NodeFilled(d: Declaration, agg: EdgeAggregation, entries: map<NodeId, nat>, transition: CompiledTransition,
                   k: nat, slots: seq<Option<CompiledItem>>, paths: map<NodePath, nat>, exits: map<GraphPath, nat>)
    requires k < |d.items| && d.items[k].item.NodeItem? && Ready(d, agg, entries)
    requires FilledTo(d, agg, entries, slots, paths, exits, k)
    requires StoredTargeted(agg, entries, d.items[k].id)
    requires CompileTransition(agg, entries, d.items[k].id) == Ok(transition)
    ensures Slot(d.items, k) < |slots|
    ensures var node := Node([d.items[k].id], ROOT, d.items[k].item.kind, transition);
            var slots' := slots[Slot(d.items, k) := Some(node)];
            NodePathsExact(slots', paths[node.path := Slot(d.items, k)]) ==>
              FilledTo(d, agg, entries, slots', paths[node.path := Slot(d.items, k)], exits, k + 1)
  {
    hide NodePathsExact, ScopeExitsExact, WellFormed, Placed, EdgeFault, ShapeFault, ReachabilityFault, Aggregates,
         HeaderEmpty, OwnedByEarlier, Ready;
    SlotIsFree(d, agg, entries, slots, paths, exits, k);
    var id, s := d.items[k].id, Slot(d.items, k);
    var node := Node([id], ROOT, d.items[k].item.kind, transition);
    var slots', paths' := slots[s := Some(node)], paths[node.path := s];
    StructuralFillKeepsExact(slots, s, node, paths, exits);
    PlacedNode(d, agg, entries, transition, slots', exits, k);
    forall j | 0 <= j < k ensures Placed(d, agg, entries, slots', exits, j) {
      PlacedStays(d, agg, entries, slots, exits, slots', exits, j);
    }
    forall j | k + 1 <= j < |d.items| ensures HeaderEmpty(d, slots', j) {
      LaterHeadersStayEmpty(d, k, j, slots, slots');
    }
    OwnedGrows(d, paths.Keys, paths'.Keys, k);
    OwnedGrows(d, exits.Keys, exits.Keys, k);
  }

  lemma PlacedNode(d: Declaration, agg: EdgeAggregation, entries: map<NodeId, nat>, transition: CompiledTransition,
                   slots: seq<Option<CompiledItem>>, exits: map<GraphPath, nat>, k: nat)
    requires k < |d.items| && d.items[k].item.NodeItem? && Slot(d.items, k) < |slots|
    requires StoredTargeted(agg, entries, d.items[k].id)
    requires CompileTransition(agg, entries, d.items[k].id) == Ok(transition)
    requires slots[Slot(d.items, k)] == Some(Node([d.items[k].id], ROOT, d.items[k].item.kind, transition))
    ensures Placed(d, agg, entries, slots, exits, k)
  {
  }

  lemma LaterHeadersStayEmpty(d: Declaration, k: nat, j: nat,
                              slots: seq<Option<CompiledItem>>, slots': seq<Option<CompiledItem>>)
    requires k < j < |d.items| && HeaderEmpty(d, slots, j) && |slots| <= |slots'|
    requires forall i :: 0 <= i < |slots| && !(Slot(d.items, k) <= i < Slot(d.items, k) + Width(d.items[k]))
               ==> slots'[i] == slots[i]
    ensures HeaderEmpty(d, slots', j)
  {
    SlotsAscend(d.items, k, j);
  }

  method FillMount(builder: FlatBuilder, d: Declaration, ghost agg: EdgeAggregation, entries: map<NodeId, nat>,
                   exit: nat, transition: CompiledTransition, k: nat)
    requires k < |d.items| && d.items[k].item.SubgraphItem? && Ready(d, agg, entries)
    requires exit == Slot(d.items, k) + 1
    requires FilledTo(d, agg, entries, builder.items, builder.nodePaths, builder.scopeExits, k)
    requires StoredTargeted(agg, entries, d.items[k].id)
    requires CompileTransition(agg, entries, d.items[k].id) == Ok(transition)
    modifies builder
    ensures FilledTo(d, agg, entries, builder.items, builder.nodePaths, builder.scopeExits, k + 1)
  {
    hide Placed, OwnedByEarlier, EdgeFault, ShapeFault, ReachabilityFault, WellFormed, Aggregates, Ready, FilledTo,
         NodePathsExact, ScopeExitsExact, ItemsEmbedded, ScopesEmbedded, HeaderPlaced;
    var id, child := d.items[k].id, d.items[k].item.graph;
    ghost var slots0, paths0, exits0 := builder.items, builder.nodePaths, builder.scopeExits;
    SlotIsFree(d, agg, entries, slots0, paths0, exits0, k);
    var appended := builder.AppendGraph(child, [id]);
    ghost var slots1, exits1 := builder.items, builder.scopeExits;
    NamespacesAreNotMounts(child, [id]);
    var enter := EnterSubgraph([id], Fixed(Some(if appended.value.Some? then appended.value.value else exit)));
    StructuralFillKeepsExact(slots1, entries[id], enter, builder.nodePaths, exits1);
    builder.Set(entries[id], enter);
    var leave := ExitSubgraph([id], [id], transition);
    StructuralFillKeepsExact(builder.items, exit, leave, builder.nodePaths, exits1);
    builder.Set(exit, leave);
    builder.scopeExits := builder.scopeExits[[id] := exit];
    BlockStays(d, k, |slots0|, slots1, builder.items);
    HeaderOfMount(d, transition, builder.items, k);
    MountFilled(d, agg, entries, k, slots0, paths0, exits0, exits1,
                builder.items, builder.nodePaths, builder.scopeExits);
  }

  lemma BlockStays(d: Declaration, k: nat, base: nat,
                   slots: seq<Option<CompiledItem>>, slots': seq<Option<CompiledItem>>)
    requires k < |d.items| && d.items[k].item.SubgraphItem? && base <= |slots| == |slots'|
    requires ItemsEmbedded(slots, d.items[k].item.graph, base, [d.items[k].id])
    requires forall i :: base <= i < |slots| ==> slots'[i] == slots[i]
    ensures ItemsEmbedded(slots', d.items[k].item.graph, base, [d.items[k].id])
  {
  }

  lemma HeaderOfMount(d: Declaration, transition: CompiledTransition, slots: seq<Option<CompiledItem>>, k: nat)
    requires k < |d.items| && d.items[k].item.SubgraphItem? && Slot(d.items, k) + 1 < |slots|
    requires slots[Slot(d.items, k)] == Some(EnterSubgraph([d.items[k].id], Fixed(Some(EnterTarget(d, k)))))
    requires slots[Slot(d.items, k) + 1] == Some(ExitSubgraph([d.items[k].id], [d.items[k].id], transition))
    ensures HeaderPlaced(d, transition, slots, k)
  {
  }

  lemma NamespacesAreNotMounts(child: CompiledGraph, prefix: GraphPath)
    requires WellFormed(child)
    ensures forall q :: q in child.scopeExits ==> Prefixed(q, prefix) != prefix
  {
    forall q | q in child.scopeExits ensures Prefixed(q, prefix) != prefix {
      assert |q| > 0;
    }
  }

  lemma MountFilled(d: Declaration, agg: EdgeAggregation, entries: map<NodeId, nat>, k: nat,
                    slots0: seq<Option<CompiledItem>>, paths0: map<NodePath, nat>, exits0: map<GraphPath, nat>,
                    exits1: map<GraphPath, nat>,
                    slots: seq<Option<CompiledItem>>, paths: map<NodePath, nat>, exits: map<GraphPath, nat>)
    requires k < |d.items| && d.items[k].item.SubgraphItem?
    requires FilledTo(d, agg, entries, slots0, paths0, exits0, k)
    requires StoredTargeted(agg, entries, d.items[k].id) && CompileTransition(agg, entries, d.items[k].id).Ok?
    requires HeaderPlaced(d, CompileTransition(agg, entries, d.items[k].id).value, slots, k)
    requires NodePathsExact(slots, paths) && ScopeExitsExact(slots, exits)
    requires |slots| == |slots0| + |d.items[k].item.graph.items|
    requires forall i :: 0 <= i < |slots0| && !(Slot(d.items, k) <= i < Slot(d.items, k) + 2) ==> slots[i] == slots0[i]
    requires ItemsEmbedded(slots, d.items[k].item.graph, |slots0|, [d.items[k].id])
    requires ScopesEmbedded(exits1, d.items[k].item.graph, |slots0|, [d.items[k].id])
    requires forall p :: p in exits1 ==> p in exits0 || [d.items[k].id] <= p
    requires forall p :: p in exits0 ==> p in exits1 && exits1[p] == exits0[p]
    requires [d.items[k].id] !in exits1 && exits == exits1[[d.items[k].id] := Slot(d.items, k) + 1]
    requires forall p :: p in paths ==> p in paths0 || [d.items[k].id] <= p
    ensures FilledTo(d, agg, entries, slots, paths, exits, k + 1)
  {
    hide NodePathsExact, ScopeExitsExact, WellFormed, Placed, HeaderEmpty, OwnedByEarlier, HeaderPlaced,
         ItemsEmbedded, ScopesEmbedded, StoredTargeted;
    MountSlotsGrow(d, k, slots0, slots);
    MountPlaced(d, agg, entries, k, slots, exits1, exits);
    forall j | 0 <= j < k ensures Placed(d, agg, entries, slots, exits, j) {
      PlacedStays(d, agg, entries, slots0, exits0, slots, exits, j);
    }
    forall j | k + 1 <= j < |d.items| ensures HeaderEmpty(d, slots, j) {
      LaterHeadersStayEmpty(d, k, j, slots0, slots);
    }
    OwnedGrows(d, paths0.Keys, paths.Keys, k);
    OwnedGrows(d, exits0.Keys, exits.Keys, k);
  }

  lemma MountSlotsGrow(d: Declaration, k: nat, slots0: seq<Option<CompiledItem>>, slots: seq<Option<CompiledItem>>)
    requires k < |d.items| && d.items[k].item.SubgraphItem? && HeaderEmpty(d, slots0, k)
    requires |slots| >= |slots0|
    requires forall i :: 0 <= i < |slots0| && !(Slot(d.items, k) <= i < Slot(d.items, k) + 2) ==> slots[i] == slots0[i]
    ensures SlotsGrow(slots0, slots)
  {
  }

  lemma MountPlaced(d: Declaration, agg: EdgeAggregation, entries: map<NodeId, nat>, k: nat,
                    slots: seq<Option<CompiledItem>>, exits1: map<GraphPath, nat>, exits: map<GraphPath, nat>)
    requires k < |d.items| && d.items[k].item.SubgraphItem?
    requires StoredTargeted(agg, entries, d.items[k].id) && CompileTransition(agg, entries, d.items[k].id).Ok?
    requires HeaderPlaced(d, CompileTransition(agg, entries, d.items[k].id).value, slots, k)
    requires ItemsEmbedded(slots, d.items[k].item.graph, BlockBase(d.items, k), [d.items[k].id])
    requires ScopesEmbedded(exits1, d.items[k].item.graph, BlockBase(d.items, k), [d.items[k].id])
    requires [d.items[k].id] !in exits1 && exits == exits1[[d.items[k].id] := Slot(d.items, k) + 1]
    ensures Placed(d, agg, entries, slots, exits, k)
  {
    hide HeaderPlaced, StoredTargeted, CompileTransition, ItemsEmbedded;
  }

  lemma OwnedGrows(d: Declaration, paths: set<seq<NodeId>>, paths': set<seq<NodeId>>, k: nat)
    requires k < |d.items| && OwnedByEarlier(d, paths, k)
    requires forall p :: p in paths' ==> p in paths || [d.items[k].id] <= p
    ensures OwnedByEarlier(d, paths', k + 1)
  {
    forall p | p in paths' ensures p != [] && exists j :: 0 <= j < k + 1 && d.items[j].id == p[0] {
      if [d.items[k].id] <= p { assert d.items[k].id == p[0]; }
    }
  }

  method AllocateEntries(builder: FlatBuilder, items: seq<Declared>)
    returns (entries: map<NodeId, nat>, mountExits: map<NodeId, nat>)
    requires DistinctItems(items)
    requires builder.items == [] && builder.nodePaths == map[] && builder.scopeExits == map[]
    modifies builder
    ensures |builder.items| == Slot(items, |items|) && forall i :: 0 <= i < |builder.items| ==> builder.items[i].None?
    ensures builder.nodePaths == map[] && builder.scopeExits == map[]
    ensures EntriesOf(items, entries)
    ensures forall k :: 0 <= k < |items| ==> MountExitAt(items, mountExits, k)
  {
    entries, mountExits := map[], map[];
    for k := 0 to |items|
      invariant |builder.items| == Slot(items, k) && forall i :: 0 <= i < |builder.items| ==> builder.items[i].None?
      invariant builder.nodePaths == map[] && builder.scopeExits == map[]
      invariant EntriesTo(items, entries, mountExits, k)
    {
      hide DistinctItems, EntriesTo;
      EntriesStep(items, entries, mountExits, k);
      var entry := builder.Allocate();
      if items[k].item.SubgraphItem? {
        var exit := builder.Allocate();
        mountExits := mountExits[items[k].id := exit];
      }
      entries := entries[items[k].id := entry];
    }
  }

  ghost predicate EntriesTo(items: seq<Declared>, entries: map<NodeId, nat>, mountExits: map<NodeId, nat>, n: nat)
    requires n <= |items|
  {
    && (forall j :: 0 <= j < n ==> EntryAt(items, entries, j))
    && (forall id :: id in entries ==> HasItem(items, id))
    && (forall j :: 0 <= j < n ==> MountExitAt(items, mountExits, j))
  }

  ghost predicate MountExitAt(items: seq<Declared>, mountExits: map<NodeId, nat>, k: nat)
    requires k < |items|
  {
    items[k].item.SubgraphItem? ==>
      items[k].id in mountExits && mountExits[items[k].id] == Slot(items, k) + 1
  }

  lemma EntriesStep(items: seq<Declared>, entries: map<NodeId, nat>, mountExits: map<NodeId, nat>, n: nat)
    requires n < |items| && DistinctItems(items) && EntriesTo(items, entries, mountExits, n)
    ensures var id, slot := items[n].id, Slot(items, n);
            EntriesTo(items, entries[id := slot],
                      if items[n].item.SubgraphItem? then mountExits[id := slot + 1] else mountExits, n + 1)
  {
    hide DistinctItems, HasItem, Slot;
    var id, slot := items[n].id, Slot(items, n);
    var entries' := entries[id := slot];
    var exits' := if items[n].item.SubgraphItem? then mountExits[id := slot + 1] else mountExits;
    forall j | 0 <= j < n + 1 ensures EntryAt(items, entries', j) && MountExitAt(items, exits', j) {
      if j < n {
        DistinctPair(items, j, n);
        assert EntryAt(items, entries, j) && MountExitAt(items, mountExits, j);
      }
    }
    HasOwnItem(items, n);
    assert EntriesTo(items, entries', exits', n + 1);
  }

  lemma DistinctPair(items: seq<Declared>, i: nat, j: nat)
    requires i < j < |items| && DistinctItems(items)
    ensures items[i].id != items[j].id
  {
  }

  lemma HasOwnItem(items: seq<Declared>, k: nat)
    requires k < |items|
    ensures HasItem(items, items[k].id)
  {
  }

  lemma EmbeddedSlotIsFilled(slots: seq<Option<CompiledItem>>, c: CompiledGraph, base: nat, prefix: GraphPath, i: nat)
    requires ItemsEmbedded(slots, c, base, prefix) && i < |c.items|
    ensures slots[base + i].Some?
  {
    assert slots[base + i] == Some(EmbedItem(c.items[i], prefix, Mapping(base, |c.items|)));
  }

  lemma FilledEverywhere(d: Declaration, agg: EdgeAggregation, entries: map<NodeId, nat>,
                         slots: seq<Option<CompiledItem>>, paths: map<NodePath, nat>, exits: map<GraphPath, nat>)
    requires FilledTo(d, agg, entries, slots, paths, exits, |d.items|)
    ensures forall i :: 0 <= i < |slots| ==> slots[i].Some?
    ensures ROOT !in exits
  {
    forall i | 0 <= i < |slots| ensures slots[i].Some? {
      if i < Slot(d.items, |d.items|) {
        var k := LocateSlot(d.items, |d.items|, i);
        assert Placed(d, agg, entries, slots, exits, k);
      } else {
        var k := LocateBlock(d.items, |d.items|, i);
        assert Placed(d, agg, entries, slots, exits, k);
        assert BlockPlaced(d, slots, exits, k);
        EmbeddedSlotIsFilled(slots, d.items[k].item.graph, BlockBase(d.items, k), [d.items[k].id],
                             i - BlockBase(d.items, k));
      }
    }
    assert ROOT in exits ==> ROOT in exits.Keys;
  }
}
