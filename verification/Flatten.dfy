/** Flattening: the slot builder and the layout of a compiled graph
    (crates/group-agent-core/src/graph.rs:363-476, 835-963). */
module Flatten {
  import opened Base
  import opened Paths
  import opened Transitions
  import opened Compiled
  import opened Declared
  import opened Validation

  // ---- the layout ----

  function Width(item: Declared): nat { if item.item.SubgraphItem? then 2 else 1 }

  function BlockSize(item: Declared): nat {
    if item.item.SubgraphItem? then |item.item.graph.items| else 0
  }

  /** The first slot of the k-th declared item: one slot for a node, an entry and
      an exit for a mount. */
  function Slot(items: seq<Declared>, k: nat): nat
    requires k <= |items|
  {
    if k == 0 then 0 else Slot(items, k - 1) + Width(items[k - 1])
  }

  /** Where the block of the k-th declared item starts: after every top-level
      slot and the blocks of earlier mounts. */
  function BlockBase(items: seq<Declared>, k: nat): nat
    requires k <= |items|
  {
    if k == 0 then Slot(items, |items|) else BlockBase(items, k - 1) + BlockSize(items[k - 1])
  }

  lemma {:induction false} SlotsAscend(items: seq<Declared>, j: nat, k: nat)
    requires j < k <= |items|
    ensures Slot(items, j) + Width(items[j]) <= Slot(items, k)
    decreases k - j
  {
    if j + 1 < k {
      SlotsAscend(items, j, k - 1);
    }
  }

  lemma {:induction false} LocateSlot(items: seq<Declared>, n: nat, i: nat) returns (k: nat)
    requires n <= |items| && i < Slot(items, n)
    ensures k < n && (i == Slot(items, k) || (items[k].item.SubgraphItem? && i == Slot(items, k) + 1))
  {
    if i >= Slot(items, n - 1) { k := n - 1; } else { k := LocateSlot(items, n - 1, i); }
  }

  lemma {:induction false} LocateBlock(items: seq<Declared>, n: nat, i: nat) returns (k: nat)
    requires n <= |items| && Slot(items, |items|) <= i < BlockBase(items, n)
    ensures k < n && items[k].item.SubgraphItem?
    ensures BlockBase(items, k) <= i < BlockBase(items, k) + |items[k].item.graph.items|
  {
    if i >= BlockBase(items, n - 1) { k := n - 1; } else { k := LocateBlock(items, n - 1, i); }
  }

  // ---- compiled transitions ----

  ghost predicate EntryAt(items: seq<Declared>, entries: map<NodeId, nat>, k: nat)
    requires k < |items|
  {
    items[k].id in entries && entries[items[k].id] == Slot(items, k)
  }

  /** The declared items' entry slots. */
  ghost predicate EntriesOf(items: seq<Declared>, entries: map<NodeId, nat>) {
    && (forall k :: 0 <= k < |items| ==> EntryAt(items, entries, k))
    && (forall id :: id in entries ==> HasItem(items, id))
  }

  predicate Targeted(targets: seq<NodeId>, entries: map<NodeId, nat>) {
    forall t :: t in targets && t != END ==> t in entries
  }

  function TargetIndex(entries: map<NodeId, nat>, id: NodeId): Option<nat>
    requires id == END || id in entries
  {
    if id == END then None else Some(entries[id])
  }

  function TargetSlots(entries: map<NodeId, nat>, targets: seq<NodeId>): (r: seq<nat>)
    requires Targeted(targets, entries)
    ensures forall x :: x in r <==> exists t :: t in targets && t != END && entries[t] == x
  {
    if targets == [] then []
    else
      assert targets == [targets[0]] + targets[1..];
      TargetIndices(TargetIndex(entries, targets[0])) + TargetSlots(entries, targets[1..])
  }

  function AllowedTargets(entries: map<NodeId, nat>, targets: seq<NodeId>): Whitelist
    requires Targeted(targets, entries)
  {
    map t | t in targets :: TargetIndex(entries, t)
  }

  predicate StoredTargeted(agg: EdgeAggregation, entries: map<NodeId, nat>, id: NodeId) {
    && (id in agg.fixedBySource ==> Targeted([agg.fixedBySource[id].successor], entries))
    && (id in agg.fanOutBySource ==> Targeted(agg.fanOutBySource[id].targets, entries))
    && (id in agg.conditionalBySource ==> Targeted(agg.conditionalBySource[id].targets, entries))
    && (id in agg.conditionalFanOutBySource ==> Targeted(agg.conditionalFanOutBySource[id].targets, entries))
  }

  /** Static targets are stored in slot order; they are distinct, so sorting them
      drops none. */
  function CompileTransition(agg: EdgeAggregation, entries: map<NodeId, nat>, id: NodeId)
    : Result<CompiledTransition, GraphCompileError>
    requires StoredTargeted(agg, entries, id)
  {
    if id in agg.fixedBySource then
      var successor := agg.fixedBySource[id].successor;
      assert successor in [successor];
      Ok(Fixed(TargetIndex(entries, successor)))
    else if id in agg.fanOutBySource then
      Ok(StaticFanOut(SortDedup(TargetSlots(entries, agg.fanOutBySource[id].targets))))
    else if id in agg.conditionalBySource then
      var edge := agg.conditionalBySource[id];
      Ok(Conditional(edge.router, AllowedTargets(entries, edge.targets)))
    else if id in agg.conditionalFanOutBySource then
      var edge := agg.conditionalFanOutBySource[id];
      Ok(ConditionalFanOut(edge.router, AllowedTargets(entries, edge.targets)))
    else Err(MissingOutgoingEdge(id))
  }

  // ---- what ends up in the slots ----

  function EnterTarget(d: Declaration, k: nat): nat
    requires k < |d.items| && d.items[k].item.SubgraphItem?
  {
    var entry := d.items[k].item.graph.entry;
    if entry.Some? then BlockBase(d.items, k) + entry.value else Slot(d.items, k) + 1
  }

  ghost predicate HeaderPlaced(d: Declaration, transition: CompiledTransition, slots: seq<Option<CompiledItem>>, k: nat)
    requires k < |d.items|
  {
    var id, s := d.items[k].id, Slot(d.items, k);
    && s + Width(d.items[k]) <= |slots|
    && match d.items[k].item
       case NodeItem(kind) => slots[s] == Some(Node([id], ROOT, kind, transition))
       case SubgraphItem(_) =>
         && slots[s] == Some(EnterSubgraph([id], Fixed(Some(EnterTarget(d, k)))))
         && slots[s + 1] == Some(ExitSubgraph([id], [id], transition))
  }

  ghost predicate BlockPlaced(d: Declaration, slots: seq<Option<CompiledItem>>, scopeExits: map<GraphPath, nat>, k: nat)
    requires k < |d.items|
  {
    d.items[k].item.SubgraphItem? ==>
      && ItemsEmbedded(slots, d.items[k].item.graph, BlockBase(d.items, k), [d.items[k].id])
      && ScopesEmbedded(scopeExits, d.items[k].item.graph, BlockBase(d.items, k), [d.items[k].id])
      && [d.items[k].id] in scopeExits
  }

  ghost predicate Placed(d: Declaration, agg: EdgeAggregation, entries: map<NodeId, nat>,
                         slots: seq<Option<CompiledItem>>, scopeExits: map<GraphPath, nat>, k: nat)
    requires k < |d.items|
  {
    && StoredTargeted(agg, entries, d.items[k].id)
    && CompileTransition(agg, entries, d.items[k].id).Ok?
    && HeaderPlaced(d, CompileTransition(agg, entries, d.items[k].id).value, slots, k)
    && BlockPlaced(d, slots, scopeExits, k)
  }

  function EntryTarget(agg: EdgeAggregation, entries: map<NodeId, nat>): Option<nat>
    requires START in agg.fixedBySource && Targeted([agg.fixedBySource[START].successor], entries)
  {
    assert agg.fixedBySource[START].successor in [agg.fixedBySource[START].successor];
    TargetIndex(entries, agg.fixedBySource[START].successor)
  }

  /** g is the flattening of d: every declared item's slots and block hold what
      was declared, there are no other slots, and both lookup tables are exact. */
  ghost predicate Assembled(d: Declaration, agg: EdgeAggregation, entries: map<NodeId, nat>, g: CompiledGraph) {
    && Aggregates(d, agg) && EntriesOf(d.items, entries)
    && |g.items| == BlockBase(d.items, |d.items|)
    && (forall k :: 0 <= k < |d.items| ==> Placed(d, agg, entries, Somes(g.items), g.scopeExits, k))
    && NodePathsExact(Somes(g.items), g.nodePaths)
    && ScopeExitsExact(Somes(g.items), g.scopeExits)
    && ROOT !in g.scopeExits
    && START in agg.fixedBySource && Targeted([agg.fixedBySource[START].successor], entries)
    && g.entry == EntryTarget(agg, entries)
    && g.version == d.version
  }

  ghost predicate Flattens(d: Declaration, g: CompiledGraph) {
    exists agg, entries :: Assembled(d, agg, entries, g)
  }

  // ---- the builder ----

  class FlatBuilder {
    var items: seq<Option<CompiledItem>>
    var nodePaths: map<NodePath, nat>
    var scopeExits: map<GraphPath, nat>

    constructor ()
      ensures items == [] && nodePaths == map[] && scopeExits == map[]
    {
      items, nodePaths, scopeExits := [], map[], map[];
    }

    /** Both tables agree with the slots filled so far. */
    ghost predicate Exact()
      reads this
    {
      NodePathsExact(items, nodePaths) && ScopeExitsExact(items, scopeExits)
    }

    method Allocate() returns (index: nat)
      modifies this`items
      ensures index == old(|items|) && items == old(items) + [None]
    {
      index := |items|;
      items := items + [None];
    }

    method Set(index: nat, item: CompiledItem)
      requires index < |items|
      modifies this`items
      ensures items == old(items)[index := Some(item)]
    {
      items := items[index := Some(item)];
    }

    method InsertNode(index: nat, node: CompiledItem) returns (fault: Option<GraphCompileError>)
      requires index < |items| && node.Node?
      modifies this`items, this`nodePaths
      ensures node.path in old(nodePaths) ==>
                fault == Some(DuplicateNodePath(node.path)) && items == old(items) && nodePaths == old(nodePaths)
      ensures node.path !in old(nodePaths) ==>
                && fault.None? && items == old(items)[index := Some(node)]
                && nodePaths == old(nodePaths)[node.path := index]
    {
      if node.path in nodePaths { return Some(DuplicateNodePath(node.path)); }
      nodePaths := nodePaths[node.path := index];
      items := items[index := Some(node)];
      fault := None;
    }

    /** No registered path lies under the prefix. */
    ghost predicate Unused(prefix: GraphPath)
      reads this
    {
      (forall p :: p in nodePaths ==> !(prefix <= p)) && (forall p :: p in scopeExits ==> !(prefix <= p))
    }

    /** Copies a compiled child into fresh consecutive slots under a prefix. The
        duplicate-path branch is never taken. */
    method AppendGraph(graph: CompiledGraph, prefix: GraphPath)
      returns (r: Result<Option<nat>, GraphCompileError>)
      requires WellFormed(graph) && Exact() && Unused(prefix)
      modifies this
      ensures r == Ok(if graph.entry.Some? then Some(old(|items|) + graph.entry.value) else None)
      ensures Exact()
      ensures |items| == old(|items|) + |graph.items|
      ensures forall i :: 0 <= i < old(|items|) ==> items[i] == old(items)[i]
      ensures ItemsEmbedded(items, graph, old(|items|), prefix)
      ensures ScopesEmbedded(scopeExits, graph, old(|items|), prefix)
      ensures forall p :: p in scopeExits <==>
                p in old(scopeExits) || exists q :: q in graph.scopeExits && p == Prefixed(q, prefix)
      ensures forall p :: p in old(scopeExits) ==> scopeExits[p] == old(scopeExits)[p]
      ensures forall p :: p in nodePaths ==> p in old(nodePaths) || prefix <= p
    {
      ghost var base := |items|;
      var mapping := AllocateAll(|graph.items|);
      var fault := AppendItems(graph, prefix, mapping, base);
      assert fault.None?;
      AppendScopes(graph, prefix, mapping, base, old(items), old(scopeExits));
      r := Ok(if graph.entry.Some? then Some(mapping[graph.entry.value]) else None);
    }

    /** Fills one empty slot; a node also registers its path. */
    method PlaceItem(index: nat, item: CompiledItem) returns (fault: Option<GraphCompileError>)
      requires index < |items| && items[index].None?
      requires NodePathsExact(items, nodePaths)
      requires item.Node? ==> item.path !in nodePaths
      modifies this`items, this`nodePaths
      ensures fault.None? && items == old(items)[index := Some(item)]
      ensures nodePaths == if item.Node? then old(nodePaths)[item.path := index] else old(nodePaths)
      ensures NodePathsExact(items, nodePaths)
    {
      if item.Node? {
        fault := InsertNode(index, item);
      } else {
        Set(index, item);
        fault := None;
      }
    }

    method AppendItems(graph: CompiledGraph, prefix: GraphPath, mapping: seq<nat>, ghost base: nat)
      returns (fault: Option<GraphCompileError>)
      requires WellFormed(graph) && mapping == Mapping(base, |graph.items|) && |items| == base + |graph.items|
      requires NodePathsExact(items, nodePaths) && Unused(prefix)
      requires forall j :: base <= j < |items| ==> items[j].None?
      modifies this`items, this`nodePaths
      ensures fault.None? && NodePathsExact(items, nodePaths) && |items| == old(|items|)
      ensures forall j :: 0 <= j < base ==> items[j] == old(items)[j]
      ensures ItemsEmbedded(items, graph, base, prefix)
      ensures forall p :: p in nodePaths ==> p in old(nodePaths) || prefix <= p
    {
      hide WellFormed, NodePathsExact, WithinRange, EmbedItem, ItemsMoved, PathsMoved;
      NothingMoved(items, nodePaths, graph, base, prefix);
      for i := 0 to |graph.items|
        invariant |items| == old(|items|) && NodePathsExact(items, nodePaths)
        invariant forall j :: 0 <= j < base ==> items[j] == old(items)[j]
        invariant ItemsMoved(items, graph, base, prefix, i)
        invariant forall j :: base + i <= j < |items| ==> items[j].None?
        invariant PathsMoved(nodePaths, old(nodePaths), graph, prefix, i)
      {
        ItemInRange(graph, i);
        EmbeddedPath(graph.items[i], prefix, mapping);
        FreshInChild(graph, nodePaths, old(nodePaths), prefix, i);
        ghost var items0, paths0 := items, nodePaths;
        fault := PlaceItem(mapping[i], EmbedItem(graph.items[i], prefix, mapping));
        MovedOneItem(items0, paths0, old(nodePaths), items, nodePaths, graph, base, prefix, i);
      }
      AllItemsMoved(items, nodePaths, old(nodePaths), graph, base, prefix);
      fault := None;
    }

    method AllocateAll(count: nat) returns (mapping: seq<nat>)
      modifies this`items
      ensures mapping == Mapping(old(|items|), count)
      ensures |items| == old(|items|) + count
      ensures forall i :: 0 <= i < old(|items|) ==> items[i] == old(items)[i]
      ensures forall i :: old(|items|) <= i < |items| ==> items[i].None?
    {
      mapping := [];
      for i := 0 to count
        invariant |items| == old(|items|) + i
        invariant forall j :: 0 <= j < old(|items|) ==> items[j] == old(items)[j]
        invariant forall j :: old(|items|) <= j < |items| ==> items[j].None?
        invariant mapping == Mapping(old(|items|), i)
      {
        var index := Allocate();
        mapping := mapping + [index];
      }
    }

    method AppendScopes(graph: CompiledGraph, prefix: GraphPath, mapping: seq<nat>, ghost base: nat,
                        ghost before: seq<Option<CompiledItem>>, ghost scopes: map<GraphPath, nat>)
      requires WellFormed(graph) && mapping == Mapping(base, |graph.items|)
      requires base == |before| && |items| == base + |graph.items| && scopeExits == scopes
      requires forall j :: 0 <= j < base ==> items[j] == before[j]
      requires ItemsEmbedded(items, graph, base, prefix)
      requires ScopeExitsExact(before, scopes) && forall p :: p in scopes ==> !(prefix <= p)
      modifies this`scopeExits
      ensures ScopeExitsExact(items, scopeExits) && ScopesEmbedded(scopeExits, graph, base, prefix)
      ensures forall p :: p in scopeExits <==>
                p in scopes || exists q :: q in graph.scopeExits && p == Prefixed(q, prefix)
      ensures forall p :: p in scopes ==> scopeExits[p] == scopes[p]
    {
      hide MovedScopes, WellFormed, ScopeExitsExact, ScopesEmbedded, ItemsEmbedded, Prefixed;
      var remaining := graph.scopeExits.Keys;
      NoScopesMoved(scopes, graph.scopeExits, base, prefix);
      NoneGone(graph.scopeExits.Keys);
      while remaining != {}
        invariant remaining <= graph.scopeExits.Keys
        invariant MovedScopes(scopeExits, scopes, graph.scopeExits, graph.scopeExits.Keys - remaining, base, prefix)
        decreases |remaining|
      {
        var q :| q in remaining;
        ScopeInRange(graph, q);
        MovedOneScope(scopeExits, scopes, graph.scopeExits, graph.scopeExits.Keys - remaining, base, prefix, q);
        OneFewerLeft(graph.scopeExits.Keys, remaining, q);
        scopeExits := scopeExits[Prefixed(q, prefix) := mapping[graph.scopeExits[q]]];
        remaining := remaining - {q};
      }
      NoneLeft(graph.scopeExits.Keys);
      AllScopesMoved(graph, scopeExits, scopes, base, prefix);
      ScopesStayExact(graph, prefix, base, before, scopes, items, scopeExits);
    }

    method Finish() returns (finished: seq<CompiledItem>)
      requires forall i :: 0 <= i < |items| ==> items[i].Some?
      ensures Somes(finished) == items
    {
      finished := [];
      for i := 0 to |items|
        invariant |finished| == i && forall j :: 0 <= j < i ==> Some(finished[j]) == items[j]
      {
        finished := finished + [items[i].value];
      }
    }
  }

  // ---- scopes moved under a prefix ----

  /** The scopes in `done` are moved, the earlier ones untouched, and no other is
      there. */
  ghost predicate MovedScopes(exits: map<GraphPath, nat>, scopes: map<GraphPath, nat>, child: map<GraphPath, nat>,
                              done: set<GraphPath>, base: nat, prefix: GraphPath)
  {
    && (forall p :: p in exits <==> p in scopes || exists q :: q in done && p == Prefixed(q, prefix))
    && (forall q :: q in done ==>
          q in child && Prefixed(q, prefix) in exits && exits[Prefixed(q, prefix)] == base + child[q])
    && (forall p :: p in scopes ==> p in exits && exits[p] == scopes[p])
  }

  lemma OneFewerLeft<T>(all: set<T>, left: set<T>, x: T)
    requires x in left && left <= all
    ensures all - (left - {x}) == all - left + {x}
  {
  }

  lemma NoneGone<T>(all: set<T>)
    ensures all - all == {}
  {
  }

  lemma NoneLeft<T>(all: set<T>)
    ensures all - {} == all
  {
  }

  lemma NoScopesMoved(scopes: map<GraphPath, nat>, child: map<GraphPath, nat>, base: nat, prefix: GraphPath)
    ensures MovedScopes(scopes, scopes, child, {}, base, prefix)
  {
  }

  lemma MovedOneScope(exits: map<GraphPath, nat>, scopes: map<GraphPath, nat>, child: map<GraphPath, nat>,
                      done: set<GraphPath>, base: nat, prefix: GraphPath, q: GraphPath)
    requires MovedScopes(exits, scopes, child, done, base, prefix) && q in child
    requires forall p :: p in scopes ==> !(prefix <= p)
    ensures MovedScopes(exits[Prefixed(q, prefix) := base + child[q]], scopes, child, done + {q}, base, prefix)
  {
    hide Prefixed;
    SamePrefix(done, prefix, q);
  }

  lemma AllScopesMoved(graph: CompiledGraph, exits: map<GraphPath, nat>, scopes: map<GraphPath, nat>, base: nat,
                       prefix: GraphPath)
    requires MovedScopes(exits, scopes, graph.scopeExits, graph.scopeExits.Keys, base, prefix)
    ensures ScopesEmbedded(exits, graph, base, prefix)
    ensures forall p :: p in exits <==> p in scopes || exists q :: q in graph.scopeExits && p == Prefixed(q, prefix)
    ensures forall p :: p in scopes ==> p in exits && exits[p] == scopes[p]
  {
    hide Prefixed;
  }

  lemma ScopeInRange(graph: CompiledGraph, q: GraphPath)
    requires WellFormed(graph) && q in graph.scopeExits
    ensures graph.scopeExits[q] < |graph.items|
  {
    assert graph.scopeExits[q] < |Somes(graph.items)|;
  }

  // ---- items moved into a block ----

  ghost predicate ItemsMoved(items: seq<Option<CompiledItem>>, graph: CompiledGraph, base: nat, prefix: GraphPath,
                             n: nat)
  {
    n <= |graph.items| && base + n <= |items| &&
    forall j :: 0 <= j < n ==>
      WithinRange(graph.items[j].transition, |graph.items|)
      && items[base + j] == Some(EmbedItem(graph.items[j], prefix, Mapping(base, |graph.items|)))
  }

  ghost predicate PathsMoved(paths: map<NodePath, nat>, before: map<NodePath, nat>, graph: CompiledGraph,
                             prefix: GraphPath, n: nat)
  {
    n <= |graph.items| &&
    forall p :: p in paths ==>
      p in before || exists j :: 0 <= j < n && graph.items[j].Node? && p == Prefixed(graph.items[j].path, prefix)
  }

  lemma NothingMoved(items: seq<Option<CompiledItem>>, paths: map<NodePath, nat>, graph: CompiledGraph, base: nat,
                     prefix: GraphPath)
    requires base <= |items|
    ensures ItemsMoved(items, graph, base, prefix, 0) && PathsMoved(paths, paths, graph, prefix, 0)
  {
  }

  lemma EmbeddedPath(item: CompiledItem, prefix: GraphPath, mapping: seq<nat>)
    requires WithinRange(item.transition, |mapping|)
    ensures EmbedItem(item, prefix, mapping).Node? == item.Node?
    ensures item.Node? ==> EmbedItem(item, prefix, mapping).path == Prefixed(item.path, prefix)
  {
  }

  lemma FreshInChild(graph: CompiledGraph, paths: map<NodePath, nat>, before: map<NodePath, nat>, prefix: GraphPath,
                     i: nat)
    requires WellFormed(graph) && i < |graph.items| && PathsMoved(paths, before, graph, prefix, i)
    requires forall p :: p in before ==> !(prefix <= p)
    ensures graph.items[i].Node? ==> Prefixed(graph.items[i].path, prefix) !in paths
  {
    hide WellFormed;
    if graph.items[i].Node? { FreshChildPath(graph, prefix, i); }
  }

  lemma MovedOneItem(items: seq<Option<CompiledItem>>, paths: map<NodePath, nat>, before: map<NodePath, nat>,
                     items': seq<Option<CompiledItem>>, paths': map<NodePath, nat>,
                     graph: CompiledGraph, base: nat, prefix: GraphPath, i: nat)
    requires i < |graph.items| && base + |graph.items| <= |items|
    requires WithinRange(graph.items[i].transition, |graph.items|)
    requires ItemsMoved(items, graph, base, prefix, i) && PathsMoved(paths, before, graph, prefix, i)
    requires items' == items[base + i := Some(EmbedItem(graph.items[i], prefix, Mapping(base, |graph.items|)))]
    requires paths' == if graph.items[i].Node? then paths[Prefixed(graph.items[i].path, prefix) := base + i] else paths
    ensures ItemsMoved(items', graph, base, prefix, i + 1) && PathsMoved(paths', before, graph, prefix, i + 1)
  {
    hide WithinRange, EmbedItem, Prefixed;
  }

  lemma AllItemsMoved(items: seq<Option<CompiledItem>>, paths: map<NodePath, nat>, before: map<NodePath, nat>,
                      graph: CompiledGraph, base: nat, prefix: GraphPath)
    requires ItemsMoved(items, graph, base, prefix, |graph.items|)
    requires PathsMoved(paths, before, graph, prefix, |graph.items|)
    ensures ItemsEmbedded(items, graph, base, prefix)
    ensures forall p :: p in paths ==> p in before || prefix <= p
  {
    hide WithinRange, EmbedItem;
    UnderPrefix(graph, prefix);
  }

  lemma ItemInRange(graph: CompiledGraph, i: nat)
    requires WellFormed(graph) && i < |graph.items|
    ensures WithinRange(graph.items[i].transition, |graph.items|)
  {
    assert ItemOk(graph, i);
  }

  lemma UnderPrefix(graph: CompiledGraph, prefix: GraphPath)
    ensures forall j :: 0 <= j < |graph.items| && graph.items[j].Node? ==>
              prefix <= Prefixed(graph.items[j].path, prefix)
  {
  }

  lemma SamePrefix(paths: set<seq<NodeId>>, prefix: GraphPath, q: seq<NodeId>)
    ensures forall p :: Prefixed(p, prefix) == Prefixed(q, prefix) ==> p == q
    ensures prefix <= Prefixed(q, prefix)
  {
    forall p | Prefixed(p, prefix) == Prefixed(q, prefix) ensures p == q {
      assert p == Prefixed(p, prefix)[|prefix|..] && q == Prefixed(q, prefix)[|prefix|..];
    }
  }

  /** Distinct nodes of a compiled child have distinct paths under any prefix. */
  lemma FreshChildPath(graph: CompiledGraph, prefix: GraphPath, i: nat)
    requires WellFormed(graph) && i < |graph.items| && graph.items[i].Node?
    ensures prefix <= Prefixed(graph.items[i].path, prefix)
    ensures forall j :: 0 <= j < i && graph.items[j].Node? ==>
              Prefixed(graph.items[j].path, prefix) != Prefixed(graph.items[i].path, prefix)
  {
    var slots := Somes(graph.items);
    forall j | 0 <= j < i && graph.items[j].Node?
      ensures Prefixed(graph.items[j].path, prefix) != Prefixed(graph.items[i].path, prefix)
    {
      assert slots[j].Some? && slots[i].Some?;
      SamePrefix({}, prefix, graph.items[i].path);
    }
  }

  lemma ExitsOf(graph: CompiledGraph)
    requires WellFormed(graph)
    ensures ScopeExitsExact(Somes(graph.items), graph.scopeExits)
  {
  }

  lemma EmbeddedExit(item: CompiledItem, prefix: GraphPath, mapping: seq<nat>)
    requires WithinRange(item.transition, |mapping|)
    ensures EmbedItem(item, prefix, mapping).ExitSubgraph? == item.ExitSubgraph?
    ensures item.ExitSubgraph? ==> EmbedItem(item, prefix, mapping).graphPath == Prefixed(item.graphPath, prefix)
  {
  }

  /** Every registered scope has its exit. */
  lemma ScopesHaveExits(graph: CompiledGraph, prefix: GraphPath, base: nat, items: seq<Option<CompiledItem>>,
                        scopeExits: map<GraphPath, nat>, q: GraphPath)
    requires ScopeExitsExact(Somes(graph.items), graph.scopeExits) && q in graph.scopeExits
    requires ItemsEmbedded(items, graph, base, prefix) && ScopesEmbedded(scopeExits, graph, base, prefix)
    ensures var p := Prefixed(q, prefix);
            && p in scopeExits && scopeExits[p] < |items| && items[scopeExits[p]].Some?
            && items[scopeExits[p]].value.ExitSubgraph? && items[scopeExits[p]].value.graphPath == p
  {
    hide EmbedItem, Prefixed, WithinRange;
    var k, slots := graph.scopeExits[q], Somes(graph.items);
    assert slots[k].value.ExitSubgraph?;
    EmbeddedExit(graph.items[k], prefix, Mapping(base, |graph.items|));
  }

  /** Every embedded exit is registered. */
  lemma ExitsHaveScopes(graph: CompiledGraph, prefix: GraphPath, base: nat, items: seq<Option<CompiledItem>>,
                        scopeExits: map<GraphPath, nat>, k: nat)
    requires ScopeExitsExact(Somes(graph.items), graph.scopeExits) && k < |graph.items|
    requires ItemsEmbedded(items, graph, base, prefix) && ScopesEmbedded(scopeExits, graph, base, prefix)
    requires items[base + k].Some? && items[base + k].value.ExitSubgraph?
    ensures var p := items[base + k].value.graphPath; p in scopeExits && scopeExits[p] == base + k
  {
    hide EmbedItem, Prefixed, WithinRange;
    var slots := Somes(graph.items);
    EmbeddedExit(graph.items[k], prefix, Mapping(base, |graph.items|));
    assert slots[k].value.ExitSubgraph?;
    assert graph.items[k].graphPath in graph.scopeExits;
  }

  lemma ScopesStayExact(graph: CompiledGraph, prefix: GraphPath, base: nat,
                        before: seq<Option<CompiledItem>>, scopes: map<GraphPath, nat>,
                        items: seq<Option<CompiledItem>>, scopeExits: map<GraphPath, nat>)
    requires WellFormed(graph) && base == |before| && |items| == base + |graph.items|
    requires forall j :: 0 <= j < base ==> items[j] == before[j]
    requires ItemsEmbedded(items, graph, base, prefix) && ScopeExitsExact(before, scopes)
    requires forall p :: p in scopeExits <==>
               p in scopes || exists q :: q in graph.scopeExits && p == Prefixed(q, prefix)
    requires forall p :: p in scopes ==> scopeExits[p] == scopes[p]
    requires ScopesEmbedded(scopeExits, graph, base, prefix)
    ensures ScopeExitsExact(items, scopeExits)
  {
    ExitsOf(graph);
    hide WellFormed, Prefixed;
    forall p | p in scopeExits
      ensures scopeExits[p] < |items| && items[scopeExits[p]].Some?
              && items[scopeExits[p]].value.ExitSubgraph? && items[scopeExits[p]].value.graphPath == p
    {
      if p !in scopes {
        var q :| q in graph.scopeExits && p == Prefixed(q, prefix);
        ScopesHaveExits(graph, prefix, base, items, scopeExits, q);
      }
    }
    hide ItemsEmbedded, ScopesEmbedded;
    forall i | 0 <= i < |items| && items[i].Some? && items[i].value.ExitSubgraph?
      ensures items[i].value.graphPath in scopeExits && scopeExits[items[i].value.graphPath] == i
    {
      if i >= base {
        ExitsHaveScopes(graph, prefix, base, items, scopeExits, i - base);
      } else {
        assert before[i].value.graphPath in scopes;
      }
    }
  }
}
