/** What a compiled graph does at its declared items, in terms of the declaration
    alone: which slot an answer of a declared router activates
    (crates/group-agent-core/src/graph.rs:310-476;
     crates/group-agent-core/src/transition.rs:43-111). */
module CompiledMeaning {
  import opened Base
  import opened Domain
  import opened Paths
  import opened Transitions
  import opened Compiled
  import opened Declared
  import opened Validation
  import opened FrontierCheck
  import opened Flatten
  import opened Assembly
  import opened FlattenSound

  // ---- the statement ----

  /** x is where the item declared under `id` is entered. */
  ghost predicate EntryOf(g: CompiledGraph, id: NodeId, x: nat) {
    && x < |g.items|
    && (|| (g.items[x].Node? && g.items[x].path == [id])
        || (g.items[x].EnterSubgraph? && g.items[x].graphPath == [id]))
  }

  /** Exactly the items declared under these identifiers, each once, END none. */
  ghost predicate Enters(g: CompiledGraph, ids: seq<NodeId>, targets: seq<nat>) {
    && StrictlyAscending(targets)
    && (forall x: nat :: x in targets ==> exists id :: id in ids && id != END && EntryOf(g, id, x))
    && (forall id :: id in ids && id != END ==> exists x: nat :: EntryOf(g, id, x))
    && (forall id, x: nat :: id in ids && id != END && EntryOf(g, id, x) ==> x in targets)
  }

  /** The transition activates these items. */
  ghost predicate RoutesTo(g: CompiledGraph, t: CompiledTransition, state: State, ids: seq<NodeId>) {
    RouteTargets(t, state).Ok? && Enters(g, ids, RouteTargets(t, state).value)
  }

  ghost predicate RoutesAsFixed(d: Declaration, g: CompiledGraph, id: NodeId, t: CompiledTransition, state: State) {
    forall to :: FixedEdge(id, to) in d.fixedEdges ==> RoutesTo(g, t, state, [to])
  }

  ghost predicate RoutesAsFanOut(d: Declaration, g: CompiledGraph, id: NodeId, t: CompiledTransition, state: State) {
    forall e :: e in d.fanOutEdges && e.source == id ==> RoutesTo(g, t, state, e.targets)
  }

  /** What a conditional edge does with its own router's answer. */
  ghost predicate AnswersConditional(g: CompiledGraph, e: ConditionalEdge, t: CompiledTransition, state: State) {
    match e.router(state)
    case Err(cause) => RouteTargets(t, state) == Err(RouterFailed(cause))
    case Ok(to) =>
      if to in e.targets then RoutesTo(g, t, state, [to]) else RouteTargets(t, state) == Err(InvalidTarget(to))
  }

  /** What a conditional fan-out does with its own router's selection. */
  ghost predicate AnswersFanOut(g: CompiledGraph, e: ConditionalFanOutEdge, t: CompiledTransition, state: State) {
    match e.router(state)
    case Err(cause) => RouteTargets(t, state) == Err(RouterFailed(cause))
    case Ok(selected) =>
      if selected == [] then RouteTargets(t, state) == Err(EmptyTargets)
      else if DistinctIds(selected) && (forall id :: id in selected ==> id in e.targets) then
        RoutesTo(g, t, state, selected)
      else
        && RouteTargets(t, state).Err?
        && RefusedWith(selected, (set id | id in e.targets), RouteTargets(t, state).error)
  }

  ghost predicate RoutesAsConditional(d: Declaration, g: CompiledGraph, id: NodeId, t: CompiledTransition,
                                      state: State)
  {
    forall e :: e in d.conditionalEdges && e.source == id ==> AnswersConditional(g, e, t, state)
  }

  ghost predicate RoutesAsConditionalFanOut(d: Declaration, g: CompiledGraph, id: NodeId, t: CompiledTransition,
                                            state: State)
  {
    forall e :: e in d.conditionalFanOutEdges && e.source == id ==> AnswersFanOut(g, e, t, state)
  }

  /** Some edge leaves the item. */
  ghost predicate HasEdge(d: Declaration, id: NodeId) {
    || (exists to :: FixedEdge(id, to) in d.fixedEdges)
    || (exists e :: e in d.fanOutEdges && e.source == id)
    || (exists e :: e in d.conditionalEdges && e.source == id)
    || (exists e :: e in d.conditionalFanOutEdges && e.source == id)
  }

  /** In every state the transition routes as the item's declared edge says. */
  ghost predicate RoutesAsDeclared(d: Declaration, g: CompiledGraph, id: NodeId, t: CompiledTransition) {
    && HasEdge(d, id)
    && forall state ::
         && RoutesAsFixed(d, g, id, t, state) && RoutesAsFanOut(d, g, id, t, state)
         && RoutesAsConditional(d, g, id, t, state) && RoutesAsConditionalFanOut(d, g, id, t, state)
  }

  /** A declared node is found under its path, runs its own function and routes as
      declared; a mount is entered at its child's entry, holds its child's block,
      and routes as declared where its scope is left. */
  ghost predicate ItemMeans(d: Declaration, g: CompiledGraph, item: Declared) {
    match item.item
    case NodeItem(kind) =>
      && [item.id] in g.nodePaths && g.nodePaths[[item.id]] < |g.items|
      && var node := g.items[g.nodePaths[[item.id]]];
         && node.Node? && node.kind == kind && node.path == [item.id] && node.graphPath == ROOT
         && RoutesAsDeclared(d, g, item.id, node.transition)
    case SubgraphItem(child) =>
      && [item.id] in g.scopeExits && g.scopeExits[[item.id]] < |g.items|
      && var exit := g.items[g.scopeExits[[item.id]]];
         && exit.ExitSubgraph? && exit.graphPath == [item.id] && exit.mountPath == [item.id]
         && RoutesAsDeclared(d, g, item.id, exit.transition)
         && exists base: nat, enter: nat ::
              && Embeds(g, child, base, [item.id]) && EntryOf(g, item.id, enter)
              && g.items[enter].transition
                 == Fixed(Some(if child.entry.Some? then base + child.entry.value else g.scopeExits[[item.id]]))
  }

  ghost predicate StartMeans(d: Declaration, g: CompiledGraph) {
    && (exists to :: FixedEdge(START, to) in d.fixedEdges)
    && forall to :: FixedEdge(START, to) in d.fixedEdges ==> Enters(g, [to], TargetIndices(g.entry))
  }

  /** The compiled graph means what was declared. */
  ghost predicate Means(d: Declaration, g: CompiledGraph) {
    && g.version == d.version && StartMeans(d, g)
    && forall k :: 0 <= k < |d.items| ==> ItemMeans(d, g, d.items[k])
  }

  // ---- entries ----

  lemma BlockIsDeeper(d: Declaration, agg: EdgeAggregation, entries: map<NodeId, nat>, g: CompiledGraph, k: nat,
                      x: nat, id: NodeId)
    requires Ready(d, agg, entries) && Assembled(d, agg, entries, g) && InBlock(d, k, x)
    ensures !EntryOf(g, id, x)
  {
    hide Ready, Assembled, CompileTransition, StoredTargeted, WellFormed, Embeds;
    MountEmbeds(d, agg, entries, g, k);
    NotReserved(d, agg, entries, k);
    var c, base, prefix := d.items[k].item.graph, BlockBase(d.items, k), [d.items[k].id];
    ItemOkOf(c, x - base);
    BlockItem(g, c, base, prefix, x - base);
    EmbeddedIsDeeper(c.items[x - base], c.scopeExits, prefix, Mapping(base, |c.items|), id);
  }

  lemma EmbeddedIsDeeper(item: CompiledItem, exits: map<GraphPath, nat>, prefix: GraphPath, mapping: seq<nat>,
                         id: NodeId)
    requires WithinRange(item.transition, |mapping|) && ItemShapeOk(item, exits) && |prefix| == 1
    ensures var placed := EmbedItem(item, prefix, mapping);
            (placed.Node? ==> placed.path != [id]) && (placed.EnterSubgraph? ==> placed.graphPath != [id])
  {
  }

  /** A declared item is entered at its own slot and nowhere else. */
  lemma EntryIsSlot(d: Declaration, agg: EdgeAggregation, entries: map<NodeId, nat>, g: CompiledGraph, k: nat, x: nat)
    requires Ready(d, agg, entries) && Assembled(d, agg, entries, g) && k < |d.items|
    ensures EntryOf(g, d.items[k].id, x) <==> x == Slot(d.items, k)
  {
    hide Ready, Assembled, EntryOf, Slot;
    HeaderEnters(d, agg, entries, g, k, d.items[k].id);
    AssembledSize(d, agg, entries, g);
    SlotsAscend(d.items, k, |d.items|);
    EntryInRange(g, d.items[k].id, x);
    if x < Slot(d.items, |d.items|) {
      var j := LocateSlot(d.items, |d.items|, x);
      HeaderEnters(d, agg, entries, g, j, d.items[k].id);
      ItemsAreDistinct(d, agg, entries, j, k);
    } else if x < |g.items| {
      var j := LocateBlock(d.items, |d.items|, x);
      BlockIsDeeper(d, agg, entries, g, j, x, d.items[k].id);
    }
  }

  /** The slot of an item is entered under its identifier, the exit slot under none. */
  lemma HeaderEnters(d: Declaration, agg: EdgeAggregation, entries: map<NodeId, nat>, g: CompiledGraph, j: nat,
                     id: NodeId)
    requires Assembled(d, agg, entries, g) && j < |d.items|
    ensures EntryOf(g, id, Slot(d.items, j)) <==> d.items[j].id == id
    ensures d.items[j].item.SubgraphItem? ==> !EntryOf(g, id, Slot(d.items, j) + 1)
  {
    hide Assembled, CompileTransition, StoredTargeted, Slot, EnterTarget;
    HeaderItems(d, agg, entries, g, j);
    assert [d.items[j].id][0] == d.items[j].id;
    assert [id][0] == id;
  }

  lemma EntryInRange(g: CompiledGraph, id: NodeId, x: nat)
    ensures EntryOf(g, id, x) ==> x < |g.items|
  {
  }

  lemma ItemsAreDistinct(d: Declaration, agg: EdgeAggregation, entries: map<NodeId, nat>, j: nat, k: nat)
    requires Ready(d, agg, entries) && j < |d.items| && k < |d.items|
    ensures d.items[j].id == d.items[k].id ==> j == k
  {
  }

  /** Slots of known identifiers are the entries of those identifiers. */
  lemma SlotsAreEntered(d: Declaration, agg: EdgeAggregation, entries: map<NodeId, nat>, g: CompiledGraph,
                        ids: seq<NodeId>, targets: seq<nat>)
    requires Ready(d, agg, entries) && Assembled(d, agg, entries, g) && Targeted(ids, entries)
    requires StrictlyAscending(targets)
    requires forall x :: x in targets <==> exists id :: id in ids && id != END && id in entries && entries[id] == x
    ensures Enters(g, ids, targets)
  {
    hide Ready, Assembled, Slot, EntryOf, Targeted;
    forall id | id in ids && id != END ensures id in entries && EntryOf(g, id, entries[id]) {
      EntryIsStored(d, agg, entries, g, ids, id);
    }
    forall id, x: nat | id in ids && id != END && EntryOf(g, id, x) ensures x in targets {
      EntryIsStored(d, agg, entries, g, ids, id);
    }
  }

  lemma EntryIsStored(d: Declaration, agg: EdgeAggregation, entries: map<NodeId, nat>, g: CompiledGraph,
                      ids: seq<NodeId>, id: NodeId)
    requires Ready(d, agg, entries) && Assembled(d, agg, entries, g) && Targeted(ids, entries)
    requires id in ids && id != END
    ensures id in entries && forall x: nat :: EntryOf(g, id, x) <==> x == entries[id]
  {
    hide Ready, Assembled, Slot;
    var k := KnownItem(d, agg, entries, id);
    forall x: nat ensures EntryOf(g, id, x) <==> x == entries[id] { EntryIsSlot(d, agg, entries, g, k, x); }
  }

  lemma KnownItem(d: Declaration, agg: EdgeAggregation, entries: map<NodeId, nat>, id: NodeId) returns (k: nat)
    requires Ready(d, agg, entries) && id in entries
    ensures k < |d.items| && d.items[k].id == id && entries[id] == Slot(d.items, k)
  {
    hide EdgeFault, ShapeFault, ReachabilityFault, ValidDeclaration, Aggregates, Slot;
    k :| 0 <= k < |d.items| && d.items[k].id == id;
    assert EntryAt(d.items, entries, k);
  }

  // ---- the four kinds of edges ----

  /** One identifier and its slot. */
  lemma OneIsEntered(d: Declaration, agg: EdgeAggregation, entries: map<NodeId, nat>, g: CompiledGraph, to: NodeId)
    requires Ready(d, agg, entries) && Assembled(d, agg, entries, g) && Targeted([to], entries)
    ensures to == END || to in entries
    ensures Enters(g, [to], TargetIndices(TargetIndex(entries, to)))
  {
    hide Ready, Assembled, Enters;
    assert to in [to];
    SlotsAreEntered(d, agg, entries, g, [to], TargetIndices(TargetIndex(entries, to)));
  }

  lemma FixedMeans(d: Declaration, agg: EdgeAggregation, entries: map<NodeId, nat>, g: CompiledGraph, k: nat,
                   state: State)
    requires Ready(d, agg, entries) && Assembled(d, agg, entries, g) && k < |d.items|
    requires StoredTargeted(agg, entries, d.items[k].id) && CompileTransition(agg, entries, d.items[k].id).Ok?
    ensures RoutesAsFixed(d, g, d.items[k].id, CompileTransition(agg, entries, d.items[k].id).value, state)
  {
    var id, t := d.items[k].id, CompileTransition(agg, entries, d.items[k].id).value;
    forall to | FixedEdge(id, to) in d.fixedEdges ensures RoutesTo(g, t, state, [to]) {
      StoredFixed(d, agg, entries, k, to);
      hide Ready, Assembled, Enters;
      OneIsEntered(d, agg, entries, g, to);
    }
  }

  lemma StoredFixed(d: Declaration, agg: EdgeAggregation, entries: map<NodeId, nat>, k: nat, to: NodeId)
    requires Ready(d, agg, entries) && k < |d.items| && FixedEdge(d.items[k].id, to) in d.fixedEdges
    ensures var id := d.items[k].id; id in agg.fixedBySource && agg.fixedBySource[id].successor == to
  {
    HasOwnItem(d.items, k);
    assert Leads(d, d.items[k].id, to);
    LeadsIsStored(d, agg, d.items[k].id, to);
    FixedEdgesCount(d.fixedEdges, d.items[k].id, to);
    AggregationCounts(d, agg, d.items[k].id);
  }

  /** The stored edge of a kind is the declared one. */
  lemma StoredRouted<R>(edges: seq<Routed<R>>, m: map<NodeId, Routed<R>>, e: Routed<R>)
    requires DistinctSources(edges) && RoutedAggregated(edges, m) && e in edges
    ensures e.source in m && m[e.source] == e
  {
    var i :| 0 <= i < |edges| && edges[i] == e;
    var j :| 0 <= j < |edges| && edges[j] == m[e.source];
  }

  /** The one kind of edge an item has. */
  lemma OneKind(d: Declaration, agg: EdgeAggregation, entries: map<NodeId, nat>, k: nat)
    requires Ready(d, agg, entries) && k < |d.items|
    ensures var id := d.items[k].id;
            One(id in agg.fixedBySource) + One(id in agg.fanOutBySource) + One(id in agg.conditionalBySource)
            + One(id in agg.conditionalFanOutBySource) <= 1
    ensures ValidDeclaration(d) && Aggregates(d, agg)
  {
    HasOwnItem(d.items, k);
    LeadsIsStored(d, agg, d.items[k].id, END);
  }

  lemma FanOutMeans(d: Declaration, agg: EdgeAggregation, entries: map<NodeId, nat>, g: CompiledGraph, k: nat,
                    state: State)
    requires Ready(d, agg, entries) && Assembled(d, agg, entries, g) && k < |d.items|
    requires StoredTargeted(agg, entries, d.items[k].id) && CompileTransition(agg, entries, d.items[k].id).Ok?
    ensures RoutesAsFanOut(d, g, d.items[k].id, CompileTransition(agg, entries, d.items[k].id).value, state)
  {
    OneKind(d, agg, entries, k);
    hide Ready, Assembled, WellFormed, FixedAggregated, RoutesTo;
    var id, t := d.items[k].id, CompileTransition(agg, entries, d.items[k].id).value;
    forall e | e in d.fanOutEdges && e.source == id ensures RoutesTo(g, t, state, e.targets) {
      StoredRouted(d.fanOutEdges, agg.fanOutBySource, e);
      AllTargetsAreEntered(d, agg, entries, g, e.targets, state);
    }
  }

  lemma AllTargetsAreEntered(d: Declaration, agg: EdgeAggregation, entries: map<NodeId, nat>, g: CompiledGraph,
                             ids: seq<NodeId>, state: State)
    requires Ready(d, agg, entries) && Assembled(d, agg, entries, g) && Targeted(ids, entries)
    ensures RoutesTo(g, StaticFanOut(SortDedup(TargetSlots(entries, ids))), state, ids)
  {
    hide Ready, Assembled, Enters, SortDedup;
    var targets := SortDedup(TargetSlots(entries, ids));
    SortDedupSorts(TargetSlots(entries, ids));
    TargetSlotsAre(entries, ids);
    forall x ensures x in targets <==> exists to :: to in ids && to != END && to in entries && entries[to] == x {
      assert x in targets <==> x in set y | y in targets;
    }
    SlotsAreEntered(d, agg, entries, g, ids, targets);
  }

  lemma ConditionalMeans(d: Declaration, agg: EdgeAggregation, entries: map<NodeId, nat>, g: CompiledGraph, k: nat,
                         state: State)
    requires Ready(d, agg, entries) && Assembled(d, agg, entries, g) && k < |d.items|
    requires StoredTargeted(agg, entries, d.items[k].id) && CompileTransition(agg, entries, d.items[k].id).Ok?
    ensures RoutesAsConditional(d, g, d.items[k].id, CompileTransition(agg, entries, d.items[k].id).value, state)
  {
    OneKind(d, agg, entries, k);
    hide Ready, Assembled, WellFormed, FixedAggregated, AnswersConditional;
    var id, t := d.items[k].id, CompileTransition(agg, entries, d.items[k].id).value;
    forall e | e in d.conditionalEdges && e.source == id ensures AnswersConditional(g, e, t, state) {
      StoredRouted(d.conditionalEdges, agg.conditionalBySource, e);
      AnswerMeans(d, agg, entries, g, e, state);
    }
  }

  lemma AnswerMeans(d: Declaration, agg: EdgeAggregation, entries: map<NodeId, nat>, g: CompiledGraph,
                    e: ConditionalEdge, state: State)
    requires Ready(d, agg, entries) && Assembled(d, agg, entries, g) && Targeted(e.targets, entries)
    ensures AnswersConditional(g, e, Conditional(e.router, AllowedTargets(entries, e.targets)), state)
  {
    hide Ready, Assembled, Enters;
    if e.router(state).Ok? && e.router(state).value in e.targets {
      assert Targeted([e.router(state).value], entries);
      OneIsEntered(d, agg, entries, g, e.router(state).value);
    }
  }

  lemma ConditionalFanOutMeans(d: Declaration, agg: EdgeAggregation, entries: map<NodeId, nat>, g: CompiledGraph,
                               k: nat, state: State)
    requires Ready(d, agg, entries) && Assembled(d, agg, entries, g) && k < |d.items|
    requires StoredTargeted(agg, entries, d.items[k].id) && CompileTransition(agg, entries, d.items[k].id).Ok?
    ensures RoutesAsConditionalFanOut(d, g, d.items[k].id, CompileTransition(agg, entries, d.items[k].id).value, state)
  {
    OneKind(d, agg, entries, k);
    hide Ready, Assembled, AnswersFanOut, WellFormed, FixedAggregated;
    var id, t := d.items[k].id, CompileTransition(agg, entries, d.items[k].id).value;
    forall e | e in d.conditionalFanOutEdges && e.source == id ensures AnswersFanOut(g, e, t, state) {
      StoredRouted(d.conditionalFanOutEdges, agg.conditionalFanOutBySource, e);
      SelectionMeans(d, agg, entries, g, e, state);
    }
  }

  /** The compiled whitelist lets the router's own selection through, and nothing
      else. */
  lemma SelectionMeans(d: Declaration, agg: EdgeAggregation, entries: map<NodeId, nat>, g: CompiledGraph,
                       e: ConditionalFanOutEdge, state: State)
    requires Ready(d, agg, entries) && Assembled(d, agg, entries, g) && Targeted(e.targets, entries)
    ensures AnswersFanOut(g, e, ConditionalFanOut(e.router, AllowedTargets(entries, e.targets)), state)
  {
    EntriesKnown(d, agg, entries);
    hide Ready, Assembled, Enters, RouteTargets, EntriesOf, DistinctIds, RefusedWith;
    var allowed := AllowedTargets(entries, e.targets);
    assert allowed.Keys == set id | id in e.targets;
    FanOutAnswers(e.router, allowed, state);
    if e.router(state).Ok? && e.router(state).value != [] {
      FanOutActivatesTheSelection(e.router, allowed, state);
      if RouteTargets(ConditionalFanOut(e.router, allowed), state).Ok? {
        WhitelistNamesApart(d.items, entries, e.targets);
        SelectionIsEntered(d, agg, entries, g, e.targets, e.router(state).value,
                           RouteTargets(ConditionalFanOut(e.router, allowed), state).value);
      }
    }
  }

  lemma SelectionIsEntered(d: Declaration, agg: EdgeAggregation, entries: map<NodeId, nat>, g: CompiledGraph,
                           declared: seq<NodeId>, selected: seq<NodeId>, targets: seq<nat>)
    requires Ready(d, agg, entries) && Assembled(d, agg, entries, g) && Targeted(declared, entries)
    requires (forall id :: id in selected ==> id in declared) && StrictlyAscending(targets)
    requires var allowed := AllowedTargets(entries, declared);
             forall x :: x in targets <==> exists id :: id in selected && id in allowed && allowed[id] == Some(x)
    ensures Enters(g, selected, targets)
  {
    hide Ready, Assembled, Enters, StrictlyAscending;
    var allowed := AllowedTargets(entries, declared);
    forall x ensures x in targets <==> exists id :: id in selected && id != END && id in entries && entries[id] == x {
      if x in targets {
        var id :| id in selected && id in allowed && allowed[id] == Some(x);
      }
      if id :| id in selected && id != END && id in entries && entries[id] == x {
        assert id in allowed && allowed[id] == Some(x);
      }
    }
    SlotsAreEntered(d, agg, entries, g, selected, targets);
  }

  lemma EntriesKnown(d: Declaration, agg: EdgeAggregation, entries: map<NodeId, nat>)
    requires Ready(d, agg, entries)
    ensures EntriesOf(d.items, entries)
  {
  }

  /** The answers of a conditional fan-out that are errors. */
  lemma FanOutAnswers(router: FanOutRouter, allowed: Whitelist, state: State)
    ensures var r := RouteTargets(ConditionalFanOut(router, allowed), state);
            match router(state)
            case Err(cause) => r == Err(RouterFailed(cause))
            case Ok(selected) =>
              && (selected == [] ==> r == Err(EmptyTargets))
              && (selected != [] && r.Err? ==> RefusedWith(selected, allowed.Keys, r.error))
  {
    hide SortChoices, ChoiceTargets;
    if router(state).Ok? && router(state).value != [] && Select(router(state).value, allowed, {}).Err? {
      var k := SelectReports(router(state).value, allowed);
    }
  }

  // ---- the whole graph ----

  lemma EdgeExists(d: Declaration, agg: EdgeAggregation, entries: map<NodeId, nat>, k: nat)
    requires Ready(d, agg, entries) && k < |d.items|
    ensures HasEdge(d, d.items[k].id)
  {
    var id := d.items[k].id;
    TransitionExists(d, agg, entries, k);
    OneKind(d, agg, entries, k);
    hide Ready;
    if id in agg.fixedBySource {
      FixedEdgesCount(d.fixedEdges, id, agg.fixedBySource[id].successor);
      assert FixedEdge(id, agg.fixedBySource[id].successor) in d.fixedEdges;
    } else if id in agg.fanOutBySource {
      assert agg.fanOutBySource[id] in d.fanOutEdges;
    } else if id in agg.conditionalBySource {
      assert agg.conditionalBySource[id] in d.conditionalEdges;
    } else {
      assert agg.conditionalFanOutBySource[id] in d.conditionalFanOutEdges;
    }
  }

  lemma TransitionMeans(d: Declaration, agg: EdgeAggregation, entries: map<NodeId, nat>, g: CompiledGraph, k: nat)
    requires Ready(d, agg, entries) && Assembled(d, agg, entries, g) && k < |d.items|
    requires StoredTargeted(agg, entries, d.items[k].id) && CompileTransition(agg, entries, d.items[k].id).Ok?
    ensures RoutesAsDeclared(d, g, d.items[k].id, CompileTransition(agg, entries, d.items[k].id).value)
  {
    hide *;
    var id, t := d.items[k].id, CompileTransition(agg, entries, d.items[k].id).value;
    EdgeExists(d, agg, entries, k);
    forall state
      ensures RoutesAsFixed(d, g, id, t, state) && RoutesAsFanOut(d, g, id, t, state)
      ensures RoutesAsConditional(d, g, id, t, state) && RoutesAsConditionalFanOut(d, g, id, t, state)
    {
      FixedMeans(d, agg, entries, g, k, state);
      FanOutMeans(d, agg, entries, g, k, state);
      ConditionalMeans(d, agg, entries, g, k, state);
      ConditionalFanOutMeans(d, agg, entries, g, k, state);
    }
    RoutesIs(d, g, id, t);
  }

  lemma RoutesIs(d: Declaration, g: CompiledGraph, id: NodeId, t: CompiledTransition)
    requires HasEdge(d, id)
    requires forall state ::
               && RoutesAsFixed(d, g, id, t, state) && RoutesAsFanOut(d, g, id, t, state)
               && RoutesAsConditional(d, g, id, t, state) && RoutesAsConditionalFanOut(d, g, id, t, state)
    ensures RoutesAsDeclared(d, g, id, t)
  {
  }

  lemma PathOfNode(g: CompiledGraph, i: nat)
    requires WellFormed(g) && i < |g.items|
    ensures g.items[i].Node? ==> g.items[i].path in g.nodePaths && g.nodePaths[g.items[i].path] == i
    ensures g.items[i].ExitSubgraph? ==>
              g.items[i].graphPath in g.scopeExits && g.scopeExits[g.items[i].graphPath] == i
  {
    assert Somes(g.items)[i].Some?;
  }

  lemma ItemIsMeant(d: Declaration, agg: EdgeAggregation, entries: map<NodeId, nat>, g: CompiledGraph, k: nat)
    requires Ready(d, agg, entries) && Assembled(d, agg, entries, g) && WellFormed(g) && k < |d.items|
    ensures ItemMeans(d, g, d.items[k])
  {
    hide Ready, Assembled, CompileTransition, StoredTargeted, WellFormed, Embeds, RoutesAsDeclared;
    HeaderItems(d, agg, entries, g, k);
    TransitionMeans(d, agg, entries, g, k);
    var s := Slot(d.items, k);
    if d.items[k].item.NodeItem? {
      PathOfNode(g, s);
    } else {
      PathOfNode(g, s + 1);
      MountEmbeds(d, agg, entries, g, k);
      assert EntryOf(g, d.items[k].id, s);
      assert Embeds(g, d.items[k].item.graph, BlockBase(d.items, k), [d.items[k].id]);
    }
  }

  lemma StartIsMeant(d: Declaration, agg: EdgeAggregation, entries: map<NodeId, nat>, g: CompiledGraph)
    requires Ready(d, agg, entries) && Assembled(d, agg, entries, g)
    ensures StartMeans(d, g)
  {
    StoredStart(d, agg, entries, g);
    hide Ready, Assembled, Enters, Targeted;
    var successor := agg.fixedBySource[START].successor;
    assert FixedEdge(START, successor) in d.fixedEdges;
    OneIsEntered(d, agg, entries, g, successor);
  }

  lemma StoredStart(d: Declaration, agg: EdgeAggregation, entries: map<NodeId, nat>, g: CompiledGraph)
    requires Ready(d, agg, entries) && Assembled(d, agg, entries, g)
    ensures START in agg.fixedBySource
    ensures var successor := agg.fixedBySource[START].successor;
            && FixedEdge(START, successor) in d.fixedEdges && Targeted([successor], entries)
            && (successor == END || successor in entries)
            && g.entry == TargetIndex(entries, successor)
            && forall to :: FixedEdge(START, to) in d.fixedEdges ==> to == successor
  {
    hide Placed, NodePathsExact, ScopeExitsExact, BlockBase, ReachabilityFault, EdgeFault;
    var successor := agg.fixedBySource[START].successor;
    assert successor in [successor];
    AggregationCounts(d, agg, START);
    forall to | FixedEdge(START, to) in d.fixedEdges ensures to == successor {
      FixedEdgesCount(d.fixedEdges, START, to);
    }
    FixedEdgesCount(d.fixedEdges, START, successor);
  }

  lemma AssembledMeans(d: Declaration, agg: EdgeAggregation, entries: map<NodeId, nat>, g: CompiledGraph)
    requires Ready(d, agg, entries) && Assembled(d, agg, entries, g) && WellFormed(g)
    ensures Means(d, g)
  {
    hide WellFormed, Assembled, ItemMeans, StartMeans, Ready;
    VersionIsKept(d, agg, entries, g);
    StartIsMeant(d, agg, entries, g);
    forall k | 0 <= k < |d.items| ensures ItemMeans(d, g, d.items[k]) { ItemIsMeant(d, agg, entries, g, k); }
  }

  /** The flattening of a checked declaration means what was declared: a node runs
      its own function and a mount holds its own child, the entry is START's target,
      and every item routes by its own edge, router and whitelist. */
  lemma FlatteningMeansDeclaration(d: Declaration, g: CompiledGraph)
    requires ValidDeclaration(d) && DeclarationFault(d).None? && MountsAlone(d) && Flattens(d, g)
    ensures Means(d, g)
  {
    hide WellFormed, MountsAlone, Assembled, ValidDeclaration, EdgeFault, ShapeFault, ReachabilityFault, Means, Ready;
    var agg, entries :| Assembled(d, agg, entries, g);
    ReadyFrom(d, agg, entries, g);
    FlatteningIsWellFormed(d, agg, entries, g);
    AssembledMeans(d, agg, entries, g);
  }

  lemma VersionIsKept(d: Declaration, agg: EdgeAggregation, entries: map<NodeId, nat>, g: CompiledGraph)
    requires Assembled(d, agg, entries, g)
    ensures g.version == d.version
  {
    hide Placed, NodePathsExact, ScopeExitsExact, Aggregates, BlockBase;
  }
}
