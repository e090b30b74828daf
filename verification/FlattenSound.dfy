/** Every flattening is a well-formed compiled graph. */
module FlattenSound {
  import opened Base
  import opened Paths
  import opened Transitions
  import opened Compiled
  import opened Declared
  import opened Validation
  import opened FrontierCheck
  import opened Flatten
  import opened Assembly

  // ---- compiled transitions say what was declared ----

  lemma TargetSlotsAre(entries: map<NodeId, nat>, targets: seq<NodeId>)
    requires Targeted(targets, entries)
    ensures WhitelistTargets(AllowedTargets(entries, targets)) == set t | t in targets && t != END :: entries[t]
    ensures (set x | x in SortDedup(TargetSlots(entries, targets))) == set t | t in targets && t != END :: entries[t]
  {
    var slots := TargetSlots(entries, targets);
    SortDedupSorts(slots);
    var allowed := AllowedTargets(entries, targets);
    forall x ensures x in WhitelistTargets(allowed) <==> exists t :: t in targets && t != END && entries[t] == x {
      if t :| t in targets && t != END && entries[t] == x {
        assert t in allowed && allowed[t] == Some(x);
      }
    }
  }

  /** A compiled transition targets exactly the entry slots of the items its
      source leads to, and a fan-out's targets were declared in one edge. */
  lemma CompiledTargets(d: Declaration, agg: EdgeAggregation, entries: map<NodeId, nat>, k: nat)
    requires Ready(d, agg, entries) && k < |d.items|
    requires StoredTargeted(agg, entries, d.items[k].id) && CompileTransition(agg, entries, d.items[k].id).Ok?
    ensures var id, t := d.items[k].id, CompileTransition(agg, entries, d.items[k].id).value;
            && (forall x :: x in TargetSet(t) <==>
                  exists to :: Activates(d, id, to) && to in entries && entries[to] == x)
            && (forall a, b :: IsFanOut(t) && Activates(d, id, a) && Activates(d, id, b) ==>
                  FansOut(d.fanOutEdges, a, b) || FansOut(d.conditionalFanOutEdges, a, b))
  {
    var id, t := d.items[k].id, CompileTransition(agg, entries, d.items[k].id).value;
    HasOwnItem(d.items, k);
    forall to ensures Leads(d, id, to) <==>
            || (id in agg.fixedBySource && to == agg.fixedBySource[id].successor)
            || (id in agg.fanOutBySource && to in agg.fanOutBySource[id].targets)
            || (id in agg.conditionalBySource && to in agg.conditionalBySource[id].targets)
            || (id in agg.conditionalFanOutBySource && to in agg.conditionalFanOutBySource[id].targets)
    {
      LeadsIsStored(d, agg, id, to);
    }
    LeadsIsStored(d, agg, id, END);
    StoredTargetsOf(d, agg, entries, k);
  }

  lemma StoredTargetsOf(d: Declaration, agg: EdgeAggregation, entries: map<NodeId, nat>, k: nat)
    requires k < |d.items| && Aggregates(d, agg)
    requires var id := d.items[k].id;
             StoredTargeted(agg, entries, id) && CompileTransition(agg, entries, id).Ok?
             && forall to :: Leads(d, id, to) <==>
                  || (id in agg.fixedBySource && to == agg.fixedBySource[id].successor)
                  || (id in agg.fanOutBySource && to in agg.fanOutBySource[id].targets)
                  || (id in agg.conditionalBySource && to in agg.conditionalBySource[id].targets)
                  || (id in agg.conditionalFanOutBySource && to in agg.conditionalFanOutBySource[id].targets)
    requires var id := d.items[k].id;
             One(id in agg.fixedBySource) + One(id in agg.fanOutBySource) + One(id in agg.conditionalBySource)
             + One(id in agg.conditionalFanOutBySource) <= 1
    ensures var id, t := d.items[k].id, CompileTransition(agg, entries, d.items[k].id).value;
            && (forall x :: x in TargetSet(t) <==>
                  exists to :: Activates(d, id, to) && to in entries && entries[to] == x)
            && (forall a, b :: IsFanOut(t) && Activates(d, id, a) && Activates(d, id, b) ==>
                  FansOut(d.fanOutEdges, a, b) || FansOut(d.conditionalFanOutEdges, a, b))
  {
    hide Leads, RoutedLeads;
    var id := d.items[k].id;
    if id in agg.fixedBySource {
      var successor := agg.fixedBySource[id].successor;
      assert successor in [successor];
    } else if id in agg.fanOutBySource {
      var targets := agg.fanOutBySource[id].targets;
      TargetSlotsAre(entries, targets);
      assert agg.fanOutBySource[id] in d.fanOutEdges;
      var t := CompileTransition(agg, entries, id).value;
      assert TargetSet(t) == set to | to in targets && to != END :: entries[to];
    } else if id in agg.conditionalBySource {
      TargetSlotsAre(entries, agg.conditionalBySource[id].targets);
    } else {
      TargetSlotsAre(entries, agg.conditionalFanOutBySource[id].targets);
      assert agg.conditionalFanOutBySource[id] in d.conditionalFanOutEdges;
    }
  }

  /** Distinct identifiers of a compiled whitelist name distinct slots. */
  lemma WhitelistNamesApart(items: seq<Declared>, entries: map<NodeId, nat>, targets: seq<NodeId>)
    requires EntriesOf(items, entries) && Targeted(targets, entries)
    ensures NamesApart(AllowedTargets(entries, targets))
  {
    hide Slot;
    forall a, b | a in targets && b in targets && a != b && a != END && b != END ensures entries[a] != entries[b] {
      var j :| 0 <= j < |items| && items[j].id == a;
      var k :| 0 <= k < |items| && items[k].id == b;
      assert EntryAt(items, entries, j) && EntryAt(items, entries, k);
      if j < k { SlotsAscend(items, j, k); } else { SlotsAscend(items, k, j); }
    }
  }

  /** A declared target is some item's entry slot. */
  lemma TargetIsEntry(d: Declaration, agg: EdgeAggregation, entries: map<NodeId, nat>, from: NodeId, to: NodeId)
    returns (j: nat)
    requires Ready(d, agg, entries) && Activates(d, from, to)
    ensures j < |d.items| && d.items[j].id == to && to in entries && entries[to] == Slot(d.items, j)
  {
    LeadsIsKnown(d, from, to);
    j :| 0 <= j < |d.items| && d.items[j].id == to;
    assert EntryAt(d.items, entries, j);
  }

  // ---- one item at a time ----

  lemma EmbeddedNamespace(item: CompiledItem, exits: map<GraphPath, nat>, prefix: GraphPath, mapping: seq<nat>)
    requires WithinRange(item.transition, |mapping|) && ItemShapeOk(item, exits)
    ensures Space(EmbedItem(item, prefix, mapping)) == prefix + Space(item)
    ensures Home(EmbedItem(item, prefix, mapping)) == prefix + Home(item)
  {
  }

  lemma EmbeddedLink(from: CompiledItem, to: CompiledItem, exits: map<GraphPath, nat>, prefix: GraphPath,
                     mapping: seq<nat>)
    requires WithinRange(from.transition, |mapping|) && WithinRange(to.transition, |mapping|)
    requires ItemShapeOk(from, exits) && ItemShapeOk(to, exits) && LinkOk(from, to)
    ensures LinkOk(EmbedItem(from, prefix, mapping), EmbedItem(to, prefix, mapping))
  {
    EmbeddedNamespace(from, exits, prefix, mapping);
    EmbeddedNamespace(to, exits, prefix, mapping);
  }

  /** Item by item, the invariant of a child carries over to its block. */
  lemma EmbedKeepsItemOk(g: CompiledGraph, c: CompiledGraph, base: nat, prefix: GraphPath, k: nat)
    requires WellFormed(c) && Embeds(g, c, base, prefix) && k < |c.items|
    ensures base + k < |g.items| && ItemOk(g, base + k)
  {
    hide WellFormed, Embeds, EmbedItem, ItemShapeOk, LinkOk, HasChoice;
    var m := Mapping(base, |c.items|);
    var item := c.items[k];
    ItemOkOf(c, k);
    RemapHasChoice(item.transition, m);
    BlockItem(g, c, base, prefix, k);
    RemapTargetSet(item.transition, m);
    EmbeddedTransition(item, prefix, m);
    var placed := g.items[base + k];
    var targets := TargetSet(placed.transition);
    forall t | t in targets ensures t < |g.items| {
      var x :| x in TargetSet(item.transition) && t == m[x];
      BlockItem(g, c, base, prefix, x);
    }
    forall t | t in targets ensures LinkOk(placed, g.items[t]) {
      var x :| x in TargetSet(item.transition) && t == m[x];
      ItemOkOf(c, x);
      BlockItem(g, c, base, prefix, x);
      EmbeddedLink(item, c.items[x], c.scopeExits, prefix, m);
    }
    EmbedKeepsShape(g, c, base, prefix, k);
  }

  lemma EmbeddedTransition(item: CompiledItem, prefix: GraphPath, mapping: seq<nat>)
    requires WithinRange(item.transition, |mapping|)
    ensures EmbedItem(item, prefix, mapping).transition == Remap(item.transition, mapping)
    ensures EmbedItem(item, prefix, mapping).Node? == item.Node?
    ensures EmbedItem(item, prefix, mapping).ExitSubgraph? == item.ExitSubgraph?
  {
  }

  lemma OwnedUnderPrefix(g: CompiledGraph, c: CompiledGraph, base: nat, prefix: GraphPath, path: GraphPath)
    requires Embeds(g, c, base, prefix) && Owned(path, c.scopeExits)
    ensures Owned(Prefixed(path, prefix), g.scopeExits)
  {
    assert path == ROOT ==> Prefixed(path, prefix) == prefix;
  }

  lemma EmbedKeepsShape(g: CompiledGraph, c: CompiledGraph, base: nat, prefix: GraphPath, k: nat)
    requires WellFormed(c) && Embeds(g, c, base, prefix) && k < |c.items|
    ensures WithinRange(c.items[k].transition, |c.items|)
    ensures ItemShapeOk(EmbedItem(c.items[k], prefix, Mapping(base, |c.items|)), g.scopeExits)
  {
    ItemOkOf(c, k);
    hide Embeds, WellFormed, EmbedItem, ItemShapeOk;
    OwnedNamesMove(g, c, base, prefix);
    ShapeMoves(c.items[k], c.scopeExits, prefix, Mapping(base, |c.items|), g.scopeExits);
  }

  ghost predicate OwnedMoves(exits: map<GraphPath, nat>, prefix: GraphPath, moved: map<GraphPath, nat>) {
    forall path :: Owned(path, exits) ==> Owned(Prefixed(path, prefix), moved)
  }

  lemma ShapeMoves(item: CompiledItem, exits: map<GraphPath, nat>, prefix: GraphPath, mapping: seq<nat>,
                   moved: map<GraphPath, nat>)
    requires WithinRange(item.transition, |mapping|) && ItemShapeOk(item, exits) && OwnedMoves(exits, prefix, moved)
    ensures ItemShapeOk(EmbedItem(item, prefix, mapping), moved)
  {
    match item
    case Node(_, _, _, _) => NodeShapeMoves(item, exits, prefix, mapping, moved);
    case EnterSubgraph(_, _) => EnterShapeMoves(item, exits, prefix, mapping, moved);
    case ExitSubgraph(_, _, _) => ExitShapeMoves(item, exits, prefix, mapping, moved);
  }

  lemma NodeShapeMoves(item: CompiledItem, exits: map<GraphPath, nat>, prefix: GraphPath, mapping: seq<nat>,
                       moved: map<GraphPath, nat>)
    requires item.Node? && WithinRange(item.transition, |mapping|) && ItemShapeOk(item, exits)
    requires OwnedMoves(exits, prefix, moved)
    ensures ItemShapeOk(EmbedItem(item, prefix, mapping), moved)
  {
    hide Remap, GraphPathOf, Leaf, Owned;
    PrefixedKeepsStructure(item.path, prefix);
  }

  lemma EnterShapeMoves(item: CompiledItem, exits: map<GraphPath, nat>, prefix: GraphPath, mapping: seq<nat>,
                        moved: map<GraphPath, nat>)
    requires item.EnterSubgraph? && WithinRange(item.transition, |mapping|) && ItemShapeOk(item, exits)
    requires OwnedMoves(exits, prefix, moved)
    ensures ItemShapeOk(EmbedItem(item, prefix, mapping), moved)
  {
    hide GraphPathOf, Leaf, Owned;
    PrefixedKeepsStructure(item.graphPath, prefix);
  }

  lemma ExitShapeMoves(item: CompiledItem, exits: map<GraphPath, nat>, prefix: GraphPath, mapping: seq<nat>,
                       moved: map<GraphPath, nat>)
    requires item.ExitSubgraph? && WithinRange(item.transition, |mapping|) && ItemShapeOk(item, exits)
    requires OwnedMoves(exits, prefix, moved)
    ensures ItemShapeOk(EmbedItem(item, prefix, mapping), moved)
  {
    hide Remap, GraphPathOf, Leaf, Owned;
    PrefixedKeepsStructure(item.graphPath, prefix);
  }

  lemma OwnedNamesMove(g: CompiledGraph, c: CompiledGraph, base: nat, prefix: GraphPath)
    requires Embeds(g, c, base, prefix)
    ensures OwnedMoves(c.scopeExits, prefix, g.scopeExits)
  {
    forall path | Owned(path, c.scopeExits) ensures Owned(Prefixed(path, prefix), g.scopeExits) {
      OwnedUnderPrefix(g, c, base, prefix, path);
    }
  }

  lemma MountEmbeds(d: Declaration, agg: EdgeAggregation, entries: map<NodeId, nat>, g: CompiledGraph, k: nat)
    requires Assembled(d, agg, entries, g) && k < |d.items| && d.items[k].item.SubgraphItem?
    ensures Embeds(g, d.items[k].item.graph, BlockBase(d.items, k), [d.items[k].id])
  {
    assert Placed(d, agg, entries, Somes(g.items), g.scopeExits, k);
  }

  /** What a declared item's own slots hold. */
  lemma HeaderItems(d: Declaration, agg: EdgeAggregation, entries: map<NodeId, nat>, g: CompiledGraph, k: nat)
    requires Assembled(d, agg, entries, g) && k < |d.items|
    ensures Slot(d.items, k) < |g.items|
    ensures StoredTargeted(agg, entries, d.items[k].id) && CompileTransition(agg, entries, d.items[k].id).Ok?
    ensures var id, s, t := d.items[k].id, Slot(d.items, k), CompileTransition(agg, entries, d.items[k].id).value;
            match d.items[k].item
            case NodeItem(kind) => g.items[s] == Node([id], ROOT, kind, t)
            case SubgraphItem(_) =>
              && s + 1 < |g.items|
              && g.items[s] == EnterSubgraph([id], Fixed(Some(EnterTarget(d, k))))
              && g.items[s + 1] == ExitSubgraph([id], [id], t)
  {
    hide CompileTransition, StoredTargeted, BlockPlaced, NodePathsExact, ScopeExitsExact, Slot;
    assert Placed(d, agg, entries, Somes(g.items), g.scopeExits, k);
    var s := Slot(d.items, k);
    assert Somes(g.items)[s] == Some(g.items[s]);
    if d.items[k].item.SubgraphItem? {
      assert Somes(g.items)[s + 1] == Some(g.items[s + 1]);
    }
  }

  lemma EntrySlotIsRootItem(d: Declaration, agg: EdgeAggregation, entries: map<NodeId, nat>, g: CompiledGraph, k: nat)
    requires Assembled(d, agg, entries, g) && k < |d.items|
    ensures Slot(d.items, k) < |g.items|
    ensures Space(g.items[Slot(d.items, k)]) == ROOT && !g.items[Slot(d.items, k)].ExitSubgraph?
  {
    HeaderItems(d, agg, entries, g, k);
  }

  lemma RootTransitionOk(d: Declaration, agg: EdgeAggregation, entries: map<NodeId, nat>, g: CompiledGraph, k: nat)
    requires Ready(d, agg, entries) && Assembled(d, agg, entries, g) && k < |d.items|
    requires StoredTargeted(agg, entries, d.items[k].id) && CompileTransition(agg, entries, d.items[k].id).Ok?
    ensures forall t :: t in TargetSet(CompileTransition(agg, entries, d.items[k].id).value) ==>
              t < |g.items| && Space(g.items[t]) == ROOT && !g.items[t].ExitSubgraph?
  {
    hide Ready, Assembled, CompileTransition, StoredTargeted, WellFormed, Embeds;
    CompiledTargets(d, agg, entries, k);
    forall t | t in TargetSet(CompileTransition(agg, entries, d.items[k].id).value)
      ensures t < |g.items| && Space(g.items[t]) == ROOT && !g.items[t].ExitSubgraph?
    {
      var to :| Activates(d, d.items[k].id, to) && to in entries && entries[to] == t;
      var j := TargetIsEntry(d, agg, entries, d.items[k].id, to);
      EntrySlotIsRootItem(d, agg, entries, g, j);
    }
  }

  lemma RootHasChoice(d: Declaration, agg: EdgeAggregation, entries: map<NodeId, nat>, id: NodeId)
    requires Ready(d, agg, entries) && StoredTargeted(agg, entries, id) && CompileTransition(agg, entries, id).Ok?
    ensures HasChoice(CompileTransition(agg, entries, id).value)
  {
    hide EdgeFault, ShapeFault, ReachabilityFault, WellFormed, EntriesOf;
    var t := CompileTransition(agg, entries, id).value;
    if t.Conditional? {
      assert agg.conditionalBySource[id] in d.conditionalEdges;
      assert agg.conditionalBySource[id].targets[0] in t.allowed;
    } else if t.ConditionalFanOut? {
      assert agg.conditionalFanOutBySource[id] in d.conditionalFanOutEdges;
      assert agg.conditionalFanOutBySource[id].targets[0] in t.allowed;
    }
  }

  lemma MountsRunAloneOf(g: CompiledGraph)
    requires WellFormed(g)
    ensures MountsRunAlone(g.items)
  {
  }

  lemma EntryOkOf(g: CompiledGraph)
    requires WellFormed(g)
    ensures EntryOk(g)
  {
  }

  lemma ScopeOfMount(g: CompiledGraph, c: CompiledGraph, base: nat, prefix: GraphPath)
    requires Embeds(g, c, base, prefix)
    ensures prefix != ROOT && prefix in g.scopeExits
  {
  }

  lemma EnterItemOk(d: Declaration, agg: EdgeAggregation, entries: map<NodeId, nat>, g: CompiledGraph, k: nat)
    requires Assembled(d, agg, entries, g) && k < |d.items| && d.items[k].item.SubgraphItem?
    requires WellFormed(d.items[k].item.graph)
    ensures Slot(d.items, k) < |g.items| && ItemOk(g, Slot(d.items, k))
  {
    hide Assembled, CompileTransition, StoredTargeted, WellFormed, Embeds, EmbedItem;
    HeaderItems(d, agg, entries, g, k);
    MountEmbeds(d, agg, entries, g, k);
    ScopeOfMount(g, d.items[k].item.graph, BlockBase(d.items, k), [d.items[k].id]);
    var c, base, id := d.items[k].item.graph, BlockBase(d.items, k), d.items[k].id;
    if c.entry.Some? {
      var e := c.entry.value;
      EntryOkOf(c);
      ItemOkOf(c, e);
      EmbeddedNamespace(c.items[e], c.scopeExits, [id], Mapping(base, |c.items|));
      EmbeddedTransition(c.items[e], [id], Mapping(base, |c.items|));
      BlockItem(g, c, base, [id], e);
    }
  }

  lemma NotReserved(d: Declaration, agg: EdgeAggregation, entries: map<NodeId, nat>, k: nat)
    requires Ready(d, agg, entries) && k < |d.items|
    ensures !IsReserved(d.items[k].id)
    ensures d.items[k].item.SubgraphItem? ==> WellFormed(d.items[k].item.graph)
  {
  }

  lemma ExitItemOk(d: Declaration, agg: EdgeAggregation, entries: map<NodeId, nat>, g: CompiledGraph, k: nat)
    requires Ready(d, agg, entries) && Assembled(d, agg, entries, g)
    requires k < |d.items| && d.items[k].item.SubgraphItem?
    ensures Slot(d.items, k) + 1 < |g.items| && ItemOk(g, Slot(d.items, k) + 1)
  {
    hide Ready, Assembled, CompileTransition, StoredTargeted, WellFormed, Embeds;
    HeaderItems(d, agg, entries, g, k);
    RootTransitionOk(d, agg, entries, g, k);
    RootHasChoice(d, agg, entries, d.items[k].id);
    NotReserved(d, agg, entries, k);
    hide Assembled, Ready, CompileTransition, StoredTargeted, HasChoice;
  }

  lemma NodeItemOk(d: Declaration, agg: EdgeAggregation, entries: map<NodeId, nat>, g: CompiledGraph, k: nat)
    requires Ready(d, agg, entries) && Assembled(d, agg, entries, g)
    requires k < |d.items| && d.items[k].item.NodeItem?
    ensures Slot(d.items, k) < |g.items| && ItemOk(g, Slot(d.items, k))
  {
    hide Ready, Assembled, CompileTransition, StoredTargeted, WellFormed, Embeds;
    HeaderItems(d, agg, entries, g, k);
    RootTransitionOk(d, agg, entries, g, k);
    RootHasChoice(d, agg, entries, d.items[k].id);
    NotReserved(d, agg, entries, k);
    hide Assembled, Ready, CompileTransition, StoredTargeted, HasChoice;
  }

  lemma EveryItemOk(d: Declaration, agg: EdgeAggregation, entries: map<NodeId, nat>, g: CompiledGraph, i: nat)
    requires Ready(d, agg, entries) && Assembled(d, agg, entries, g) && i < |g.items|
    ensures ItemOk(g, i)
  {
    hide Ready, Assembled, CompileTransition, StoredTargeted, WellFormed, Embeds, ItemOk, EmbedItem;
    if i < Slot(d.items, |d.items|) {
      var k := LocateSlot(d.items, |d.items|, i);
      if d.items[k].item.NodeItem? {
        NodeItemOk(d, agg, entries, g, k);
      } else if i == Slot(d.items, k) {
        NotReserved(d, agg, entries, k);
        EnterItemOk(d, agg, entries, g, k);
      } else {
        ExitItemOk(d, agg, entries, g, k);
      }
    } else {
      AssembledSize(d, agg, entries, g);
      var k := LocateBlock(d.items, |d.items|, i);
      NotReserved(d, agg, entries, k);
      MountEmbeds(d, agg, entries, g, k);
      EmbedKeepsItemOk(g, d.items[k].item.graph, BlockBase(d.items, k), [d.items[k].id], i - BlockBase(d.items, k));
    }
  }

  // ---- pairs ----

  ghost predicate InBlock(d: Declaration, k: nat, x: nat) {
    && k < |d.items| && d.items[k].item.SubgraphItem?
    && BlockBase(d.items, k) <= x < BlockBase(d.items, k) + |d.items[k].item.graph.items|
  }

  ghost predicate TopPair(d: Declaration, depth: nat, x: nat, y: nat, a: nat, b: nat) {
    && a < |d.items| && b < |d.items| && x == Slot(d.items, a) && y == Slot(d.items, b)
    && CoActiveIds(d, depth, d.items[a].id, d.items[b].id)
  }

  ghost predicate BlockPair(d: Declaration, depth: nat, x: nat, y: nat, k: nat) {
    && InBlock(d, k, x) && InBlock(d, k, y)
    && CoActive(d.items[k].item.graph.items, depth, x - BlockBase(d.items, k), y - BlockBase(d.items, k))
  }

  /** Where a pair that may share a frontier lives: at top level, as two declared
      items that may run together, or inside one mounted child. */
  ghost predicate PairExplained(d: Declaration, depth: nat, x: nat, y: nat) {
    (exists a: nat, b: nat :: TopPair(d, depth, x, y, a, b)) || (exists k: nat :: BlockPair(d, depth, x, y, k))
  }

  /** A block item activates only its own block, as the child's item does. */
  lemma TargetsOfBlockItem(d: Declaration, agg: EdgeAggregation, entries: map<NodeId, nat>, g: CompiledGraph,
                           k: nat, i: nat)
    requires Ready(d, agg, entries) && Assembled(d, agg, entries, g) && InBlock(d, k, i)
    ensures i < |g.items| && i - BlockBase(d.items, k) < |d.items[k].item.graph.items|
    ensures var c, base := d.items[k].item.graph, BlockBase(d.items, k);
            && IsFanOut(g.items[i].transition) == IsFanOut(c.items[i - base].transition)
            && g.items[i].Node? == c.items[i - base].Node?
            && forall x :: x in TargetSet(g.items[i].transition) ==>
                 InBlock(d, k, x) && x - base in TargetSet(c.items[i - base].transition)
  {
    hide Ready, Assembled, CompileTransition, StoredTargeted, WellFormed, Embeds, EmbedItem;
    MountEmbeds(d, agg, entries, g, k);
    NotReserved(d, agg, entries, k);
    var c, base := d.items[k].item.graph, BlockBase(d.items, k);
    ItemOkOf(c, i - base);
    BlockItem(g, c, base, [d.items[k].id], i - base);
    EmbeddedTransition(c.items[i - base], [d.items[k].id], Mapping(base, |c.items|));
    RemapTargetSet(c.items[i - base].transition, Mapping(base, |c.items|));
  }

  lemma TopFanOutExplained(d: Declaration, agg: EdgeAggregation, entries: map<NodeId, nat>, g: CompiledGraph,
                           depth: nat, k: nat, i: nat, x: nat, y: nat)
    requires Ready(d, agg, entries) && Assembled(d, agg, entries, g) && k < |d.items|
    requires i == Slot(d.items, k) || (d.items[k].item.SubgraphItem? && i == Slot(d.items, k) + 1)
    requires depth > 0 && x != y && ActivatesBoth(g.items, i, x, y)
    ensures PairExplained(d, depth, x, y)
  {
    hide Ready, Assembled, CompileTransition, StoredTargeted, WellFormed, Embeds, FansOut, Leads;
    HeaderItems(d, agg, entries, g, k);
    CompiledTargets(d, agg, entries, k);
    var id := d.items[k].id;
    var tx :| Activates(d, id, tx) && tx in entries && entries[tx] == x;
    var ty :| Activates(d, id, ty) && ty in entries && entries[ty] == y;
    var a := TargetIsEntry(d, agg, entries, id, tx);
    var b := TargetIsEntry(d, agg, entries, id, ty);
    assert CoActiveIds(d, depth, d.items[a].id, d.items[b].id);
    assert TopPair(d, depth, x, y, a, b);
  }

  lemma FanOutExplained(d: Declaration, agg: EdgeAggregation, entries: map<NodeId, nat>, g: CompiledGraph,
                        depth: nat, i: nat, x: nat, y: nat)
    requires Ready(d, agg, entries) && Assembled(d, agg, entries, g)
    requires depth > 0 && x != y && ActivatesBoth(g.items, i, x, y)
    ensures PairExplained(d, depth, x, y)
  {
    hide Ready, Assembled, CompileTransition, StoredTargeted, WellFormed, Embeds;
    AssembledSize(d, agg, entries, g);
    if i < Slot(d.items, |d.items|) {
      var k := LocateSlot(d.items, |d.items|, i);
      TopFanOutExplained(d, agg, entries, g, depth, k, i, x, y);
    } else {
        var k := LocateBlock(d.items, |d.items|, i);
      TargetsOfBlockItem(d, agg, entries, g, k, i);
      var base := BlockBase(d.items, k);
      assert ActivatesBoth(d.items[k].item.graph.items, i - base, x - base, y - base);
      assert BlockPair(d, depth, x, y, k);
    }
  }

  lemma AssembledSize(d: Declaration, agg: EdgeAggregation, entries: map<NodeId, nat>, g: CompiledGraph)
    requires Assembled(d, agg, entries, g)
    ensures |g.items| == BlockBase(d.items, |d.items|)
  {
  }

  lemma MountIsMount(items: seq<Declared>, k: nat)
    requires k < |items| && items[k].item.SubgraphItem?
    ensures IsMount(items, items[k].id)
  {
  }

  lemma BlockStepExplained(d: Declaration, agg: EdgeAggregation, entries: map<NodeId, nat>, g: CompiledGraph,
                           depth: nat, i: nat, j: nat, x: nat, y: nat, k: nat)
    requires Ready(d, agg, entries) && Assembled(d, agg, entries, g)
    requires depth > 0 && x != y && BlockPair(d, depth - 1, i, j, k) && ActivatesEach(g.items, i, j, x, y)
    ensures PairExplained(d, depth, x, y)
  {
    hide Ready, Assembled, CompileTransition, StoredTargeted, WellFormed, Embeds;
    TargetsOfBlockItem(d, agg, entries, g, k, i);
    TargetsOfBlockItem(d, agg, entries, g, k, j);
    var base := BlockBase(d.items, k);
    assert ActivatesEach(d.items[k].item.graph.items, i - base, j - base, x - base, y - base);
    assert BlockPair(d, depth, x, y, k);
  }

  lemma TopStepExplained(d: Declaration, agg: EdgeAggregation, entries: map<NodeId, nat>, g: CompiledGraph,
                         depth: nat, i: nat, j: nat, x: nat, y: nat, a: nat, b: nat)
    requires Ready(d, agg, entries) && Assembled(d, agg, entries, g) && MountsAlone(d)
    requires depth > 0 && x != y && TopPair(d, depth - 1, i, j, a, b) && ActivatesEach(g.items, i, j, x, y)
    ensures PairExplained(d, depth, x, y)
  {
    hide Ready, Assembled, CompileTransition, StoredTargeted, WellFormed, Embeds, FansOut, Leads, MountsAlone;
    PairIsNodes(d, depth - 1, a, b);
    HeaderItems(d, agg, entries, g, a);
    HeaderItems(d, agg, entries, g, b);
    CompiledTargets(d, agg, entries, a);
    CompiledTargets(d, agg, entries, b);
    var tx :| Activates(d, d.items[a].id, tx) && tx in entries && entries[tx] == x;
    var ty :| Activates(d, d.items[b].id, ty) && ty in entries && entries[ty] == y;
    var a' := TargetIsEntry(d, agg, entries, d.items[a].id, tx);
    var b' := TargetIsEntry(d, agg, entries, d.items[b].id, ty);
    assert CoActiveIds(d, depth, d.items[a'].id, d.items[b'].id);
    assert TopPair(d, depth, x, y, a', b');
  }

  lemma StepExplained(d: Declaration, agg: EdgeAggregation, entries: map<NodeId, nat>, g: CompiledGraph,
                      depth: nat, i: nat, j: nat, x: nat, y: nat)
    requires Ready(d, agg, entries) && Assembled(d, agg, entries, g) && MountsAlone(d)
    requires depth > 0 && x != y && PairExplained(d, depth - 1, i, j) && ActivatesEach(g.items, i, j, x, y)
    ensures PairExplained(d, depth, x, y)
  {
    hide Ready, Assembled, CompileTransition, StoredTargeted, WellFormed, Embeds, TopPair, BlockPair, MountsAlone;
    var before := depth - 1;
    if k: nat :| BlockPair(d, before, i, j, k) {
      BlockStepExplained(d, agg, entries, g, depth, i, j, x, y, k);
    } else {
      var a: nat, b: nat :| TopPair(d, before, i, j, a, b);
      TopStepExplained(d, agg, entries, g, depth, i, j, x, y, a, b);
    }
  }

  lemma PairIsNodes(d: Declaration, depth: nat, a: nat, b: nat)
    requires MountsAlone(d) && a < |d.items| && b < |d.items|
    requires CoActiveIds(d, depth, d.items[a].id, d.items[b].id)
    ensures d.items[a].item.NodeItem? && d.items[b].item.NodeItem?
  {
    CoActiveIdsIsSymmetric(d, depth, d.items[a].id, d.items[b].id);
    assert MayRunTogether(d, d.items[a].id, d.items[b].id) && MayRunTogether(d, d.items[b].id, d.items[a].id);
    if d.items[a].item.SubgraphItem? { MountIsMount(d.items, a); }
    if d.items[b].item.SubgraphItem? { MountIsMount(d.items, b); }
  }

  /** Every pair that may share a frontier of the flattening is explained by the
      declaration or by one child. */
  lemma {:induction false} CoActiveExplained(d: Declaration, agg: EdgeAggregation, entries: map<NodeId, nat>,
                                             g: CompiledGraph, depth: nat, x: nat, y: nat)
    requires Ready(d, agg, entries) && Assembled(d, agg, entries, g) && MountsAlone(d)
    requires CoActive(g.items, depth, x, y)
    ensures PairExplained(d, depth, x, y)
    decreases depth
  {
    hide Ready, Assembled, PairExplained;
    if i :| ActivatesBoth(g.items, i, x, y) {
      FanOutExplained(d, agg, entries, g, depth, i, x, y);
    } else {
      var i, j :| CoActive(g.items, depth - 1, i, j) && ActivatesEach(g.items, i, j, x, y);
      CoActiveExplained(d, agg, entries, g, depth - 1, i, j);
      StepExplained(d, agg, entries, g, depth, i, j, x, y);
    }
  }

  lemma MountsStayAlone(d: Declaration, agg: EdgeAggregation, entries: map<NodeId, nat>, g: CompiledGraph)
    requires Ready(d, agg, entries) && Assembled(d, agg, entries, g) && MountsAlone(d)
    ensures MountsRunAlone(g.items)
  {
    hide Ready, Assembled, CompileTransition, StoredTargeted, WellFormed, Embeds, MountsAlone, CoActive, PairExplained;
    forall depth: nat, x: nat, y: nat | CoActive(g.items, depth, x, y)
      ensures x < |g.items| && y < |g.items| && g.items[x].Node? && g.items[y].Node?
    {
      CoActiveExplained(d, agg, entries, g, depth, x, y);
      PairHoldsNodes(d, agg, entries, g, depth, x, y);
    }
  }

  lemma PairHoldsNodes(d: Declaration, agg: EdgeAggregation, entries: map<NodeId, nat>, g: CompiledGraph,
                       depth: nat, x: nat, y: nat)
    requires Ready(d, agg, entries) && Assembled(d, agg, entries, g) && MountsAlone(d)
    requires PairExplained(d, depth, x, y)
    ensures x < |g.items| && y < |g.items| && g.items[x].Node? && g.items[y].Node?
  {
    hide Ready, Assembled, CompileTransition, StoredTargeted, WellFormed, Embeds, MountsAlone, CoActive;
    if k: nat :| BlockPair(d, depth, x, y, k) {
      TargetsOfBlockItem(d, agg, entries, g, k, x);
      TargetsOfBlockItem(d, agg, entries, g, k, y);
      NotReserved(d, agg, entries, k);
      MountsRunAloneOf(d.items[k].item.graph);
    } else {
      var a: nat, b: nat :| TopPair(d, depth, x, y, a, b);
      PairIsNodes(d, depth, a, b);
      HeaderItems(d, agg, entries, g, a);
      HeaderItems(d, agg, entries, g, b);
    }
  }

  lemma FlatEntryOk(d: Declaration, agg: EdgeAggregation, entries: map<NodeId, nat>, g: CompiledGraph)
    requires Ready(d, agg, entries) && Assembled(d, agg, entries, g)
    ensures EntryOk(g)
  {
    if g.entry.Some? {
      var successor := agg.fixedBySource[START].successor;
      FixedEdgesCount(d.fixedEdges, START, successor);
      var k := TargetIsEntry(d, agg, entries, START, successor);
      EntrySlotIsRootItem(d, agg, entries, g, k);
    }
  }

  lemma ReadyFrom(d: Declaration, agg: EdgeAggregation, entries: map<NodeId, nat>, g: CompiledGraph)
    requires ValidDeclaration(d) && DeclarationFault(d).None? && Assembled(d, agg, entries, g)
    ensures Ready(d, agg, entries)
  {
  }

  /** Flattening a checked declaration gives a well-formed graph that holds each
      mounted child as a block under its mount's namespace. */
  lemma FlatteningIsWellFormed(d: Declaration, agg: EdgeAggregation, entries: map<NodeId, nat>, g: CompiledGraph)
    requires Ready(d, agg, entries) && Assembled(d, agg, entries, g) && MountsAlone(d)
    ensures WellFormed(g)
    ensures forall k :: 0 <= k < |d.items| && d.items[k].item.SubgraphItem? ==>
              Embeds(g, d.items[k].item.graph, BlockBase(d.items, k), [d.items[k].id])
  {
    hide ItemOk, Ready, MountsAlone, Embeds, EntryOk, MountsRunAlone;
    forall i | 0 <= i < |g.items| ensures ItemOk(g, i) { EveryItemOk(d, agg, entries, g, i); }
    MountsStayAlone(d, agg, entries, g);
    FlatEntryOk(d, agg, entries, g);
    forall k | 0 <= k < |d.items| && d.items[k].item.SubgraphItem?
      ensures Embeds(g, d.items[k].item.graph, BlockBase(d.items, k), [d.items[k].id])
    {
      MountEmbeds(d, agg, entries, g, k);
    }
  }
}
