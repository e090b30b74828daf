/** The flat, index-addressed form of a compiled graph and the invariant every
    compiled graph satisfies (crates/group-agent-core/src/graph.rs:835-1001). */
module Compiled {
  import opened Base
  import opened Domain
  import opened Paths
  import opened Transitions

  type GraphVersion = string

  datatype NodeContext = NodeContext(step: nat, path: NodePath, resume: Option<ResumeValue>)

  datatype NodeOutcome = Produced(update: Update) | Interrupt(payload: Payload)

  /** User code, as a function of the state it reads and its context. */
  datatype NodeKind =
    | Normal(run: (State, NodeContext) -> Result<Update, Cause>)
    | Interruptible(runOrSuspend: (State, NodeContext) -> Result<NodeOutcome, Cause>)

  function RunNode(kind: NodeKind, state: State, context: NodeContext): Result<NodeOutcome, Cause> {
    match kind
    case Normal(run) =>
      (match run(state, context)
       case Ok(update) => Ok(Produced(update))
       case Err(cause) => Err(cause))
    case Interruptible(run) => run(state, context)
  }

  datatype CompiledItem =
    | Node(path: NodePath, graphPath: GraphPath, kind: NodeKind, transition: CompiledTransition)
    | EnterSubgraph(graphPath: GraphPath, transition: CompiledTransition)
    | ExitSubgraph(graphPath: GraphPath, mountPath: NodePath, transition: CompiledTransition)

  datatype CompiledGraph = CompiledGraph(
    items: seq<CompiledItem>,
    nodePaths: map<NodePath, nat>,
    scopeExits: map<GraphPath, nat>,
    entry: Option<nat>,
    version: Option<GraphVersion>)

  // ---- namespaces ----

  /** The namespace an item can be activated in. */
  function Space(item: CompiledItem): GraphPath {
    if item.EnterSubgraph? && item.graphPath != ROOT then GraphPathOf(item.graphPath) else item.graphPath
  }

  /** The namespace an item's transition activates. */
  function Home(item: CompiledItem): GraphPath {
    if item.ExitSubgraph? && item.graphPath != ROOT then GraphPathOf(item.graphPath) else item.graphPath
  }

  /** Activation stays inside one namespace, and a scope exit is only ever the
      direct target of the item that entered the scope. */
  predicate LinkOk(from: CompiledItem, to: CompiledItem) {
    Space(to) == Home(from) && (to.ExitSubgraph? ==> from.EnterSubgraph?)
  }

  predicate Owned(path: GraphPath, scopeExits: map<GraphPath, nat>) {
    path == ROOT || path in scopeExits
  }

  predicate ItemShapeOk(item: CompiledItem, scopeExits: map<GraphPath, nat>) {
    match item
    case Node(path, graphPath, _, _) =>
      path != [] && GraphPathOf(path) == graphPath && !IsReserved(Leaf(path)) && Owned(graphPath, scopeExits)
    case EnterSubgraph(graphPath, transition) =>
      && graphPath != ROOT && Owned(graphPath, scopeExits) && Owned(GraphPathOf(graphPath), scopeExits)
      && transition.Fixed? && transition.target.Some?
    case ExitSubgraph(graphPath, mountPath, _) =>
      graphPath != ROOT && mountPath == graphPath && Owned(GraphPathOf(graphPath), scopeExits)
  }

  ghost predicate ItemOk(g: CompiledGraph, i: nat)
    requires i < |g.items|
  {
    var item := g.items[i];
    && WithinRange(item.transition, |g.items|)
    && (forall t :: t in TargetSet(item.transition) ==> LinkOk(item, g.items[t]))
    && ItemShapeOk(item, g.scopeExits) && HasChoice(item.transition)
  }

  // ---- lookup tables ----

  function Somes(items: seq<CompiledItem>): (slots: seq<Option<CompiledItem>>)
    ensures |slots| == |items|
    ensures forall i :: 0 <= i < |items| ==> slots[i] == Some(items[i])
  {
    seq(|items|, i requires 0 <= i < |items| => Some(items[i]))
  }

  /** `node_paths` is a bijection between node paths and filled node slots. */
  ghost predicate NodePathsExact(slots: seq<Option<CompiledItem>>, nodePaths: map<NodePath, nat>) {
    && (forall p :: p in nodePaths ==>
          nodePaths[p] < |slots| && slots[nodePaths[p]].Some?
          && slots[nodePaths[p]].value.Node? && slots[nodePaths[p]].value.path == p)
    && (forall i :: 0 <= i < |slots| && slots[i].Some? && slots[i].value.Node? ==>
          slots[i].value.path in nodePaths && nodePaths[slots[i].value.path] == i)
  }

  /** `scope_exits` is a bijection between mounted namespaces and exit slots. */
  ghost predicate ScopeExitsExact(slots: seq<Option<CompiledItem>>, scopeExits: map<GraphPath, nat>) {
    && (forall p :: p in scopeExits ==>
          scopeExits[p] < |slots| && slots[scopeExits[p]].Some?
          && slots[scopeExits[p]].value.ExitSubgraph? && slots[scopeExits[p]].value.graphPath == p)
    && (forall i :: 0 <= i < |slots| && slots[i].Some? && slots[i].value.ExitSubgraph? ==>
          slots[i].value.graphPath in scopeExits && scopeExits[slots[i].value.graphPath] == i)
  }

  // ---- items that may be active together ----

  ghost predicate ActivatesBoth(items: seq<CompiledItem>, i: nat, x: nat, y: nat) {
    && i < |items| && IsFanOut(items[i].transition)
    && x in TargetSet(items[i].transition) && y in TargetSet(items[i].transition)
  }

  ghost predicate ActivatesEach(items: seq<CompiledItem>, i: nat, j: nat, x: nat, y: nat) {
    && i < |items| && j < |items|
    && x in TargetSet(items[i].transition) && y in TargetSet(items[j].transition)
  }

  /** x and y may share a frontier after at most `depth` super-steps: a fan-out
      activates both, or two items that may share a frontier activate one each. */
  ghost predicate CoActive(items: seq<CompiledItem>, depth: nat, x: nat, y: nat)
    decreases depth
  {
    depth > 0 && x != y &&
    ((exists i :: ActivatesBoth(items, i, x, y)) ||
     (exists i, j :: CoActive(items, depth - 1, i, j) && ActivatesEach(items, i, j, x, y)))
  }

  ghost predicate MayShareFrontier(items: seq<CompiledItem>, x: nat, y: nat) {
    exists depth: nat :: CoActive(items, depth, x, y)
  }

  /** No subgraph mount is ever beside another active item. */
  ghost predicate MountsRunAlone(items: seq<CompiledItem>) {
    forall depth: nat, x: nat, y: nat :: CoActive(items, depth, x, y) ==>
      x < |items| && y < |items| && items[x].Node? && items[y].Node?
  }

  // ---- the compiled-graph invariant ----

  ghost predicate EntryOk(g: CompiledGraph) {
    g.entry.Some? ==>
      g.entry.value < |g.items| && Space(g.items[g.entry.value]) == ROOT
      && !g.items[g.entry.value].ExitSubgraph?
  }

  ghost predicate WellFormed(g: CompiledGraph) {
    && (forall i :: 0 <= i < |g.items| ==> ItemOk(g, i))
    && NodePathsExact(Somes(g.items), g.nodePaths)
    && ScopeExitsExact(Somes(g.items), g.scopeExits)
    && ROOT !in g.scopeExits
    && EntryOk(g)
    && MountsRunAlone(g.items)
  }

  // ---- one graph inside another ----

  /** The slots `append_graph` allocates: consecutive, so ascending. */
  function Mapping(base: nat, size: nat): (m: seq<nat>)
    ensures |m| == size
    ensures forall i :: 0 <= i < size ==> m[i] == base + i
  {
    seq(size, i requires 0 <= i < size => base + i)
  }

  lemma MappingAscends(base: nat, size: nat)
    ensures StrictlyAscending(Mapping(base, size))
  {
  }

  function EmbedItem(item: CompiledItem, prefix: GraphPath, mapping: seq<nat>): CompiledItem
    requires WithinRange(item.transition, |mapping|)
  {
    match item
    case Node(path, graphPath, kind, transition) =>
      Node(Prefixed(path, prefix), Prefixed(graphPath, prefix), kind, Remap(transition, mapping))
    case EnterSubgraph(graphPath, transition) =>
      EnterSubgraph(Prefixed(graphPath, prefix), Remap(transition, mapping))
    case ExitSubgraph(graphPath, mountPath, transition) =>
      ExitSubgraph(Prefixed(graphPath, prefix), Prefixed(mountPath, prefix), Remap(transition, mapping))
  }

  ghost predicate ItemsEmbedded(slots: seq<Option<CompiledItem>>, c: CompiledGraph, base: nat, prefix: GraphPath) {
    && base + |c.items| <= |slots|
    && forall k :: 0 <= k < |c.items| ==>
         && WithinRange(c.items[k].transition, |c.items|)
         && slots[base + k] == Some(EmbedItem(c.items[k], prefix, Mapping(base, |c.items|)))
  }

  ghost predicate ScopesEmbedded(scopeExits: map<GraphPath, nat>, c: CompiledGraph, base: nat, prefix: GraphPath) {
    forall p :: p in c.scopeExits ==>
      Prefixed(p, prefix) in scopeExits && scopeExits[Prefixed(p, prefix)] == base + c.scopeExits[p]
  }

  /** c sits inside g: its items occupy a block from `base`, its namespaces are
      moved under `prefix`, and `prefix` itself has an exit. */
  ghost predicate Embeds(g: CompiledGraph, c: CompiledGraph, base: nat, prefix: GraphPath) {
    && prefix != ROOT
    && ItemsEmbedded(Somes(g.items), c, base, prefix)
    && ScopesEmbedded(g.scopeExits, c, base, prefix)
    && prefix in g.scopeExits
  }

  lemma ItemOkOf(g: CompiledGraph, i: nat)
    requires WellFormed(g) && i < |g.items|
    ensures ItemOk(g, i)
  {
  }

  /** The slot of the k-th child item. */
  lemma BlockItem(g: CompiledGraph, c: CompiledGraph, base: nat, prefix: GraphPath, k: nat)
    requires Embeds(g, c, base, prefix) && k < |c.items|
    ensures base + k < |g.items| && WithinRange(c.items[k].transition, |c.items|)
    ensures g.items[base + k] == EmbedItem(c.items[k], prefix, Mapping(base, |c.items|))
  {
    assert Somes(g.items)[base + k] == Some(EmbedItem(c.items[k], prefix, Mapping(base, |c.items|)));
  }
}
