/** When entering and leaving scopes ends
    (crates/group-agent-core/src/runtime.rs:900-974): exactly when the mounts
    have no structural cycle, and in particular when no child is empty. */
module Settling {
  import opened Base
  import opened Domain
  import opened Paths
  import opened Transitions
  import opened Compiled
  import opened Runtime
  import opened Frontiers

  // ---- the orbit of structural moves ----

  /** The structural item the next move lands on, if it lands on one. */
  function NextItem(g: CompiledGraph, i: nat, state: State): Option<nat> {
    if IsStructural(g, [i]) && StructuralMove(g, g.items[i], state).Ok?
       && IsStructural(g, StructuralMove(g, g.items[i], state).value)
    then Some(StructuralMove(g, g.items[i], state).value[0])
    else None
  }

  function Iterate(g: CompiledGraph, i: nat, state: State, n: nat): Option<nat>
    decreases n
  {
    if n == 0 then Some(i)
    else if NextItem(g, i, state).None? then None
    else Iterate(g, NextItem(g, i, state).value, state, n - 1)
  }

  lemma {:induction false} IterateAdds(g: CompiledGraph, i: nat, state: State, a: nat, b: nat)
    ensures Iterate(g, i, state, a + b)
            == if Iterate(g, i, state, a).None? then None else Iterate(g, Iterate(g, i, state, a).value, state, b)
    decreases a
  {
    hide NextItem;
    if a > 0 && NextItem(g, i, state).Some? {
      IterateAdds(g, NextItem(g, i, state).value, state, a - 1, b);
    }
  }

  lemma {:induction false} UnsettledIterates(g: CompiledGraph, i: nat, state: State, fuel: nat)
    ensures Normalize(g, [i], state, fuel).Unsettled? <==>
            IsStructural(g, [i]) && Iterate(g, i, state, fuel).Some?
            && IsStructural(g, [Iterate(g, i, state, fuel).value])
    decreases fuel
  {
    if IsStructural(g, [i]) && fuel > 0 && StructuralMove(g, g.items[i], state).Ok? {
      var next := StructuralMove(g, g.items[i], state).value;
      if IsStructural(g, next) {
        assert next == [next[0]];
        UnsettledIterates(g, next[0], state, fuel - 1);
      }
    }
  }

  /** Moves are functions of the state, so once they outnumber the items they
      repeat for ever. */
  lemma {:induction false} RepeatsForEver(g: CompiledGraph, i: nat, state: State, a: nat, b: nat, n: nat)
    requires a < b && Iterate(g, i, state, b).Some?
    requires Iterate(g, i, state, a) == Iterate(g, i, state, b)
    ensures Iterate(g, i, state, n).Some?
    decreases n
  {
    if n <= b {
      IterateAdds(g, i, state, n, b - n);
    } else {
      IterateAdds(g, i, state, b, n - b);
      IterateAdds(g, i, state, a, n - b);
      RepeatsForEver(g, i, state, a, b, a + n - b);
    }
  }

  lemma {:induction false} Pigeonhole(values: seq<nat>, bound: nat) returns (a: nat, b: nat)
    requires |values| > bound && forall k :: 0 <= k < |values| ==> values[k] < bound
    ensures a < b < |values| && values[a] == values[b]
    decreases bound
  {
    assert values[0] < bound;
    var last := bound - 1;
    if i, j :| 0 <= i < j < |values| && values[i] == last && values[j] == last {
      return i, j;
    }
    if i :| 0 <= i < |values| && values[i] == last {
      var rest := values[..i] + values[i + 1..];
      a, b := Pigeonhole(rest, last);
      a, b := if a < i then a else a + 1, if b < i then b else b + 1;
    } else {
      a, b := Pigeonhole(values, last);
    }
  }

  lemma {:induction false} IteratesStayInGraph(g: CompiledGraph, i: nat, state: State, n: nat)
    requires i < |g.items| && Iterate(g, i, state, n).Some?
    ensures Iterate(g, i, state, n).value < |g.items|
    decreases n
  {
    if n > 0 {
      IteratesStayInGraph(g, NextItem(g, i, state).value, state, n - 1);
    }
  }

  lemma OrbitRepeats(g: CompiledGraph, i: nat, state: State) returns (a: nat, b: nat)
    requires i < |g.items| && Iterate(g, i, state, |g.items|).Some?
    ensures a < b <= |g.items| && Iterate(g, i, state, b).Some?
    ensures Iterate(g, i, state, a) == Iterate(g, i, state, b)
  {
    var n := |g.items|;
    forall k | 0 <= k <= n ensures Iterate(g, i, state, k).Some? { IterateAdds(g, i, state, k, n - k); }
    var values := seq(n + 1, k requires 0 <= k <= n => Iterate(g, i, state, k).value);
    forall k | 0 <= k < |values| ensures values[k] < n { IteratesStayInGraph(g, i, state, k); }
    a, b := Pigeonhole(values, n);
    assert values[a] == Iterate(g, i, state, a).value && values[b] == Iterate(g, i, state, b).value;
  }

  lemma {:induction false} IteratesAreStructural(g: CompiledGraph, i: nat, state: State, n: nat)
    requires IsStructural(g, [i]) && Iterate(g, i, state, n).Some?
    ensures IsStructural(g, [Iterate(g, i, state, n).value])
    decreases n
  {
    if n > 0 {
      var next := StructuralMove(g, g.items[i], state).value;
      assert next == [next[0]];
      IteratesAreStructural(g, next[0], state, n - 1);
    }
  }

  /** `Unsettled` is not a bound running out: it is reported exactly when no
      number of moves settles the frontier. */
  lemma UnsettledNeverSettles(g: CompiledGraph, frontier: seq<nat>, state: State)
    ensures Settle(g, frontier, state).Unsettled? <==>
            forall fuel: nat :: Normalize(g, frontier, state, fuel).Unsettled?
  {
    var enough: nat := |g.items| + 1;
    assert !Normalize(g, frontier, state, enough).Unsettled? ==> !Settle(g, frontier, state).Unsettled?;
    if Settle(g, frontier, state).Unsettled? {
      var i, n := frontier[0], |g.items|;
      assert frontier == [i];
      UnsettledIterates(g, i, state, n + 1);
      IterateAdds(g, i, state, n, 1);
      var a, b := OrbitRepeats(g, i, state);
      forall fuel: nat ensures Normalize(g, frontier, state, fuel).Unsettled? {
        RepeatsForEver(g, i, state, a, b, fuel);
        IteratesAreStructural(g, i, state, fuel);
        UnsettledIterates(g, i, state, fuel);
      }
    } else {
      assert !Normalize(g, frontier, state, enough).Unsettled?;
    }
  }

  // ---- what routers could choose ----

  ghost predicate SingleChoice(t: CompiledTransition, targets: seq<nat>) {
    match t
    case Fixed(target) => targets == TargetIndices(target)
    case StaticFanOut(all) => targets == all
    case Conditional(_, allowed) => exists id :: id in allowed && targets == TargetIndices(allowed[id])
    case ConditionalFanOut(_, allowed) => exists id :: id in allowed && targets == TargetIndices(allowed[id])
  }

  /** Some router could take normalization from item i to item j. */
  ghost predicate MayMove(g: CompiledGraph, i: nat, j: nat) {
    && IsStructural(g, [i]) && IsStructural(g, [j])
    && exists targets :: SingleChoice(g.items[i].transition, targets) && MoveTargets(g, g.items[i], targets) == [j]
  }

  function MoveTargets(g: CompiledGraph, item: CompiledItem, targets: seq<nat>): seq<nat>
    requires !item.Node?
  {
    if item.EnterSubgraph? then targets else NextFrontier(g, ParentOf(item.mountPath), targets)
  }

  lemma SortedSingle(targets: seq<nat>, x: nat)
    ensures SortDedup(targets) == [x] ==> forall y :: y in targets <==> y == x
    ensures SortDedup([x]) == [x]
  {
    SortDedupSorts(targets);
    SortDedupSorts([x]);
    assert [x][1..] == [];
    if SortDedup(targets) == [x] {
      assert forall y :: y in [x] <==> y == x;
    }
  }

  lemma NextItemMayMove(g: CompiledGraph, i: nat, state: State)
    requires WellFormed(g) && NextItem(g, i, state).Some?
    ensures MayMove(g, i, NextItem(g, i, state).value)
  {
    var item, j := g.items[i], NextItem(g, i, state).value;
    assert ItemOk(g, i);
    hide WellFormed, ItemOk;
    var targets := RouteTargets(item.transition, state).value;
    assert StructuralMove(g, item, state).value == MoveTargets(g, item, targets);
    assert MoveTargets(g, item, targets) == [j];
    match item.transition
    case Fixed(_) => assert SingleChoice(item.transition, targets);
    case StaticFanOut(_) => assert SingleChoice(item.transition, targets);
    case Conditional(router, allowed) =>
      assert router(state).value in allowed;
      assert SingleChoice(item.transition, targets);
    case ConditionalFanOut(router, allowed) =>
      FanOutMayMove(g, item, state, j);
  }

  lemma FanOutMayMove(g: CompiledGraph, item: CompiledItem, state: State, j: nat)
    requires item.ExitSubgraph? && item.transition.ConditionalFanOut?
    requires RouteTargets(item.transition, state).Ok?
    requires MoveTargets(g, item, RouteTargets(item.transition, state).value) == [j]
    ensures exists targets :: SingleChoice(item.transition, targets) && MoveTargets(g, item, targets) == [j]
  {
    var router, allowed := item.transition.fanOutRouter, item.transition.allowed;
    var targets := RouteTargets(item.transition, state).value;
    FanOutActivatesTheSelection(router, allowed, state);
    SortDedupSorts(targets);
    if targets == [] {
      var id := router(state).value[0];
      assert id in router(state).value && id in allowed;
      assert forall x :: allowed[id] == Some(x) ==> x in targets;
      assert TargetIndices(allowed[id]) == [];
      assert SingleChoice(item.transition, []);
    } else {
      assert targets[0] in SortDedup(targets);
      SortedSingle(targets, j);
      assert j in targets;
      var id :| id in router(state).value && id in allowed && allowed[id] == Some(j);
      assert SingleChoice(item.transition, [j]);
    }
  }

  /** A cycle of structural items that routers could drive round. */
  ghost predicate IsStructuralCycle(g: CompiledGraph, cycle: seq<nat>) {
    && |cycle| >= 2 && cycle[0] == cycle[|cycle| - 1]
    && forall k :: 0 <= k < |cycle| - 1 ==> MayMove(g, cycle[k], cycle[k + 1])
  }

  ghost predicate HasStructuralCycle(g: CompiledGraph) {
    exists cycle :: IsStructuralCycle(g, cycle)
  }

  lemma {:induction false} OrbitIsPath(g: CompiledGraph, i: nat, state: State, n: nat) returns (path: seq<nat>)
    requires WellFormed(g) && Iterate(g, i, state, n).Some?
    ensures |path| == n + 1 && path[0] == i && path[n] == Iterate(g, i, state, n).value
    ensures forall k :: 0 <= k < n ==> MayMove(g, path[k], path[k + 1])
    decreases n
  {
    hide WellFormed, MayMove;
    if n == 0 {
      path := [i];
    } else {
      NextItemMayMove(g, i, state);
      var rest := OrbitIsPath(g, NextItem(g, i, state).value, state, n - 1);
      path := [i] + rest;
      forall k | 0 <= k < n ensures MayMove(g, path[k], path[k + 1]) {
        if k > 0 { assert path[k] == rest[k - 1] && path[k + 1] == rest[k]; }
      }
    }
  }

  lemma SpinningNeedsCycle(g: CompiledGraph, frontier: seq<nat>, state: State)
    requires WellFormed(g) && Settle(g, frontier, state).Unsettled?
    ensures HasStructuralCycle(g)
  {
    hide WellFormed, MayMove;
    var i, n := frontier[0], |g.items|;
    assert frontier == [i];
    UnsettledIterates(g, i, state, n + 1);
    IterateAdds(g, i, state, n, 1);
    var a, b := OrbitRepeats(g, i, state);
    var v := Iterate(g, i, state, a).value;
    IterateAdds(g, i, state, a, b - a);
    var path := OrbitIsPath(g, v, state, b - a);
    assert IsStructuralCycle(g, path);
  }

  // ---- no empty child ----

  /** A mount whose child goes straight from START to END. */
  ghost predicate EmptyMount(g: CompiledGraph, i: nat) {
    i < |g.items| && g.items[i].EnterSubgraph?
    && exists t :: t in TargetSet(g.items[i].transition) && t < |g.items| && g.items[t].ExitSubgraph?
  }

  function Depths(items: seq<CompiledItem>): nat {
    if items == [] then 0
    else Depths(items[..|items| - 1]) + |items[|items| - 1].graphPath|
  }

  lemma {:induction false} DepthBounded(items: seq<CompiledItem>, i: nat)
    requires i < |items|
    ensures |items[i].graphPath| <= Depths(items)
  {
    if i < |items| - 1 {
      DepthBounded(items[..|items| - 1], i);
    }
  }

  /** Exits climb towards the root; after them, entries descend. */
  function Height(g: CompiledGraph, i: nat): nat
    requires i < |g.items|
  {
    DepthBounded(g.items, i);
    if g.items[i].ExitSubgraph? then Depths(g.items) + 1 + |g.items[i].graphPath|
    else Depths(g.items) - |g.items[i].graphPath|
  }

  lemma MoveLowersHeight(g: CompiledGraph, i: nat, j: nat)
    requires WellFormed(g) && MayMove(g, i, j) && !EmptyMount(g, i)
    ensures Height(g, j) < Height(g, i)
  {
    hide WellFormed, NextFrontier;
    var item := g.items[i];
    var targets :| SingleChoice(item.transition, targets) && MoveTargets(g, item, targets) == [j];
    if item.EnterSubgraph? {
      EntryLowersHeight(g, i, j);
    } else {
      ItemOkOf(g, i);
      if SortDedup(targets) == [j] {
        SortedSingle(targets, j);
        assert j in targets;
        FollowingLowersHeight(g, i, j);
      } else {
        LeavingIsUp(g, ParentOf(item.mountPath), targets, j);
        ExitLowersHeight(g, i, j);
      }
    }
  }

  lemma LeavingIsUp(g: CompiledGraph, scope: GraphPath, targets: seq<nat>, j: nat)
    requires NextFrontier(g, scope, targets) == [j] && SortDedup(targets) != [j]
    ensures scope in g.scopeExits && g.scopeExits[scope] == j
  {
  }

  lemma EntryLowersHeight(g: CompiledGraph, i: nat, j: nat)
    requires WellFormed(g) && i < |g.items| && g.items[i].EnterSubgraph? && !EmptyMount(g, i)
    requires j in TargetSet(g.items[i].transition) && j < |g.items| && !g.items[j].Node?
    ensures Height(g, j) < Height(g, i)
  {
    LinkOf(g, i, j);
    ItemOkOf(g, i);
    ItemOkOf(g, j);
    hide WellFormed;
    DepthBounded(g.items, i);
    DepthBounded(g.items, j);
  }

  lemma FollowingLowersHeight(g: CompiledGraph, i: nat, j: nat)
    requires WellFormed(g) && i < |g.items| && g.items[i].ExitSubgraph?
    requires j in TargetSet(g.items[i].transition) && j < |g.items|
    ensures Height(g, j) < Height(g, i)
  {
    LinkOf(g, i, j);
    hide WellFormed;
    DepthBounded(g.items, i);
    DepthBounded(g.items, j);
  }

  lemma ExitLowersHeight(g: CompiledGraph, i: nat, j: nat)
    requires WellFormed(g) && i < |g.items| && g.items[i].ExitSubgraph?
    requires var scope := ParentOf(g.items[i].mountPath); scope in g.scopeExits && g.scopeExits[scope] == j
    ensures j < |g.items| && Height(g, j) < Height(g, i)
  {
    var scope := ParentOf(g.items[i].mountPath);
    ItemOkOf(g, i);
    ScopeExitShape(g, scope);
    ExitIsExit(g, scope);
    hide WellFormed;
    DepthBounded(g.items, i);
    DepthBounded(g.items, j);
  }

  lemma ExitIsExit(g: CompiledGraph, scope: GraphPath)
    requires WellFormed(g) && scope in g.scopeExits
    ensures scope != ROOT && g.scopeExits[scope] < |g.items| && g.items[g.scopeExits[scope]].ExitSubgraph?
  {
    assert Somes(g.items)[g.scopeExits[scope]].Some?;
  }

  lemma ScopeExitShape(g: CompiledGraph, scope: GraphPath)
    requires WellFormed(g)
    ensures scope in g.scopeExits ==>
              g.scopeExits[scope] < |g.items| && g.items[g.scopeExits[scope]].graphPath == scope
  {
    if scope in g.scopeExits { assert Somes(g.items)[g.scopeExits[scope]].Some?; }
  }

  lemma {:induction false} CycleNeedsEmptyMount(g: CompiledGraph, path: seq<nat>)
    requires WellFormed(g) && |path| >= 1 && path[0] < |g.items|
    requires forall k :: 0 <= k < |path| - 1 ==> MayMove(g, path[k], path[k + 1])
    requires forall i :: !EmptyMount(g, i)
    ensures path[|path| - 1] < |g.items|
    ensures Height(g, path[|path| - 1]) + |path| - 1 <= Height(g, path[0])
  {
    hide WellFormed, Height, EmptyMount;
    if |path| > 1 {
      var n := |path| - 1;
      assert MayMove(g, path[n - 1], path[n]);
      var shorter := path[..n];
      forall k | 0 <= k < |shorter| - 1 ensures MayMove(g, shorter[k], shorter[k + 1]) {
        assert MayMove(g, path[k], path[k + 1]);
      }
      CycleNeedsEmptyMount(g, shorter);
      MoveLowersHeight(g, path[n - 1], path[n]);
    }
  }

  /** Without empty children there is no structural cycle, so every
      normalization of a compiled graph ends. */
  lemma NoEmptyMountSettles(g: CompiledGraph, frontier: seq<nat>, state: State)
    requires WellFormed(g) && forall i :: !EmptyMount(g, i)
    ensures !HasStructuralCycle(g) && !Settle(g, frontier, state).Unsettled?
  {
    if cycle :| IsStructuralCycle(g, cycle) {
      assert MayMove(g, cycle[0], cycle[1]);
      CycleNeedsEmptyMount(g, cycle);
    }
    if Settle(g, frontier, state).Unsettled? { SpinningNeedsCycle(g, frontier, state); }
  }

  // ---- a structural cycle can be driven round for ever ----

  /** The same declaration with other routers. */
  predicate SameBut(t: CompiledTransition, t': CompiledTransition) {
    match t
    case Fixed(target) => t' == Fixed(target)
    case StaticFanOut(targets) => t' == StaticFanOut(targets)
    case Conditional(_, allowed) => t'.Conditional? && t'.allowed == allowed
    case ConditionalFanOut(_, allowed) => t'.ConditionalFanOut? && t'.allowed == allowed
  }

  ghost predicate SameItem(a: CompiledItem, b: CompiledItem) {
    && SameBut(a.transition, b.transition) && a.graphPath == b.graphPath
    && (a.Node? <==> b.Node?) && (a.EnterSubgraph? <==> b.EnterSubgraph?)
    && (a.Node? ==> a.path == b.path)
    && (a.ExitSubgraph? ==> a.mountPath == b.mountPath)
  }

  /** g' differs from g at most in what its routers and nodes compute. */
  ghost predicate SameShape(g: CompiledGraph, g': CompiledGraph) {
    && |g.items| == |g'.items|
    && (forall i :: 0 <= i < |g.items| ==> SameItem(g.items[i], g'.items[i]))
    && g.nodePaths == g'.nodePaths && g.scopeExits == g'.scopeExits && g.entry == g'.entry && g.version == g'.version
  }

  lemma {:induction false} SameShapeCoActive(g: CompiledGraph, g': CompiledGraph, depth: nat, x: nat, y: nat)
    requires SameShape(g, g') && CoActive(g'.items, depth, x, y)
    ensures CoActive(g.items, depth, x, y)
    decreases depth
  {
    if i: nat :| ActivatesBoth(g'.items, i, x, y) {
      assert SameItem(g.items[i], g'.items[i]);
      assert ActivatesBoth(g.items, i, x, y);
    } else {
      var i: nat, j: nat :| CoActive(g'.items, depth - 1, i, j) && ActivatesEach(g'.items, i, j, x, y);
      SameShapeCoActive(g, g', depth - 1, i, j);
      assert SameItem(g.items[i], g'.items[i]) && SameItem(g.items[j], g'.items[j]);
      assert ActivatesEach(g.items, i, j, x, y);
    }
  }

  lemma SameShapeItemOk(g: CompiledGraph, g': CompiledGraph, i: nat)
    requires WellFormed(g) && SameShape(g, g') && i < |g.items|
    ensures ItemOk(g', i)
  {
    ItemOkOf(g, i);
    hide WellFormed;
    assert SameItem(g.items[i], g'.items[i]);
    assert TargetSet(g.items[i].transition) == TargetSet(g'.items[i].transition);
    var targets := TargetSet(g'.items[i].transition);
    forall t | t in targets ensures LinkOk(g'.items[i], g'.items[t]) {
      assert LinkOk(g.items[i], g.items[t]) && SameItem(g.items[t], g'.items[t]);
    }
  }

  lemma SameShapeIsWellFormed(g: CompiledGraph, g': CompiledGraph)
    requires WellFormed(g) && SameShape(g, g')
    ensures WellFormed(g')
  {
    hide ItemOk, CoActive;
    forall i | 0 <= i < |g'.items| ensures ItemOk(g', i) { SameShapeItemOk(g, g', i); }
    forall depth: nat, x: nat, y: nat | CoActive(g'.items, depth, x, y)
      ensures x < |g'.items| && y < |g'.items| && g'.items[x].Node? && g'.items[y].Node?
    {
      SameShapeCoActive(g, g', depth, x, y);
      assert SameItem(g.items[x], g'.items[x]) && SameItem(g.items[y], g'.items[y]);
    }
    SameShapeTables(g, g');
  }

  lemma SameShapeTables(g: CompiledGraph, g': CompiledGraph)
    requires SameShape(g, g') && NodePathsExact(Somes(g.items), g.nodePaths)
    requires ScopeExitsExact(Somes(g.items), g.scopeExits)
    requires EntryOk(g)
    ensures NodePathsExact(Somes(g'.items), g'.nodePaths) && ScopeExitsExact(Somes(g'.items), g'.scopeExits)
    ensures EntryOk(g')
  {
    var slots, slots' := Somes(g.items), Somes(g'.items);
    forall i | 0 <= i < |slots'|
      ensures slots'[i].Some? && slots[i].Some? && SameItem(slots[i].value, slots'[i].value)
    {
      assert SameItem(g.items[i], g'.items[i]);
    }
  }

  /** Routers that always pick one declared identifier. */
  function Constant(t: CompiledTransition, id: NodeId): CompiledTransition {
    match t
    case Conditional(_, allowed) => Conditional((s: State) => Ok(id), allowed)
    case ConditionalFanOut(_, allowed) => ConditionalFanOut((s: State) => Ok([id]), allowed)
    case _ => t
  }

  lemma ConstantRoutes(t: CompiledTransition, targets: seq<nat>, state: State) returns (id: NodeId)
    requires SingleChoice(t, targets)
    ensures SameBut(t, Constant(t, id)) && RouteTargets(Constant(t, id), state) == Ok(targets)
  {
    match t
    case Fixed(_) => id := "";
    case StaticFanOut(_) => id := "";
    case Conditional(_, allowed) =>
      id :| id in allowed && targets == TargetIndices(allowed[id]);
    case ConditionalFanOut(_, allowed) =>
      id :| id in allowed && targets == TargetIndices(allowed[id]);
      OneSelected(allowed, id);
  }

  function WithTransition(item: CompiledItem, t: CompiledTransition): CompiledItem { item.(transition := t) }

  predicate StaysOn(g: CompiledGraph, i: nat, cycle: seq<nat>, state: State) {
    IsStructural(g, [i]) &&
    var move := StructuralMove(g, g.items[i], state);
    move.Ok? && |move.value| == 1 && move.value[0] in cycle
  }

  /** Rewires the first n items of the graph to stay on the cycle. */
  lemma {:induction false} Rewire(g: CompiledGraph, cycle: seq<nat>, state: State, n: nat) returns (g': CompiledGraph)
    requires IsStructuralCycle(g, cycle) && n <= |g.items|
    ensures SameShape(g, g')
    ensures forall i :: 0 <= i < n && i in cycle ==> StaysOn(g', i, cycle, state)
    ensures forall i :: n <= i < |g.items| ==> g'.items[i] == g.items[i]
    decreases n
  {
    hide MayMove, NextFrontier, RouteTargets;
    if n == 0 {
      g' := g;
      assert forall t :: SameBut(t, t);
      return;
    }
    var i := n - 1;
    var g0 := Rewire(g, cycle, state, i);
    if i !in cycle {
      g' := g0;
      return;
    }
    CycleIsStructural(g, cycle, i);
    assert SameItem(g.items[i], g0.items[i]);
    var j, targets := CycleMove(g, cycle, i);
    var id := ConstantRoutes(g.items[i].transition, targets, state);
    var item := WithTransition(g.items[i], Constant(g.items[i].transition, id));
    g' := g0.(items := g0.items[i := item]);
    forall k | 0 <= k < |g.items| ensures SameItem(g.items[k], g'.items[k]) {
      assert SameItem(g.items[k], g0.items[k]);
    }
    MoveSame(g, g', g.items[i], item, targets, state);
    forall k | 0 <= k < i && k in cycle ensures StaysOn(g', k, cycle, state) {
      assert StaysOn(g0, k, cycle, state);
      MoveIgnoresItems(g0, g', g0.items[k], state);
    }
  }

  lemma CycleIsStructural(g: CompiledGraph, cycle: seq<nat>, i: nat)
    requires IsStructuralCycle(g, cycle) && i in cycle
    ensures IsStructural(g, [i])
  {
    var k :| 0 <= k < |cycle| && cycle[k] == i;
    if k < |cycle| - 1 { assert MayMove(g, cycle[k], cycle[k + 1]); }
    else { assert MayMove(g, cycle[k - 1], cycle[k - 1 + 1]); }
  }

  lemma CycleMove(g: CompiledGraph, cycle: seq<nat>, i: nat) returns (j: nat, targets: seq<nat>)
    requires IsStructuralCycle(g, cycle) && i in cycle && IsStructural(g, [i])
    ensures j in cycle && SingleChoice(g.items[i].transition, targets)
    ensures MoveTargets(g, g.items[i], targets) == [j]
  {
    var k :| 0 <= k < |cycle| && cycle[k] == i;
    var m := if k < |cycle| - 1 then k else 0;
    assert cycle[m] == i && MayMove(g, cycle[m], cycle[m + 1]);
    j := cycle[m + 1];
    targets :| SingleChoice(g.items[i].transition, targets) && MoveTargets(g, g.items[i], targets) == [j];
  }

  lemma MoveSame(g: CompiledGraph, g': CompiledGraph, item: CompiledItem, item': CompiledItem, targets: seq<nat>,
                 state: State)
    requires !item.Node? && g.scopeExits == g'.scopeExits
    requires item' == WithTransition(item, item'.transition) && RouteTargets(item'.transition, state) == Ok(targets)
    ensures StructuralMove(g', item', state) == Ok(MoveTargets(g, item, targets))
  {
  }

  lemma MoveIgnoresItems(g: CompiledGraph, g': CompiledGraph, item: CompiledItem, state: State)
    requires !item.Node? && g.scopeExits == g'.scopeExits
    ensures StructuralMove(g, item, state) == StructuralMove(g', item, state)
  {
  }

  lemma {:induction false} CycleIterates(g: CompiledGraph, members: set<nat>, i: nat, state: State, n: nat)
    requires i in members
    requires forall m :: m in members ==> NextItem(g, m, state).Some? && NextItem(g, m, state).value in members
    ensures Iterate(g, i, state, n).Some? && Iterate(g, i, state, n).value in members
    decreases n
  {
    if n > 0 {
      CycleIterates(g, members, NextItem(g, i, state).value, state, n - 1);
    }
  }

  lemma CycleSpins(g: CompiledGraph, cycle: seq<nat>, state: State) returns (g': CompiledGraph, start: nat)
    requires WellFormed(g) && IsStructuralCycle(g, cycle)
    ensures SameShape(g, g') && WellFormed(g') && Settle(g', [start], state).Unsettled?
  {
    hide WellFormed, MayMove, SameItem, StructuralMove, Iterate, Normalize, SameShape;
    g' := Rewire(g, cycle, state, |g.items|);
    SameShapeIsWellFormed(g, g');
    var members := set i | i in cycle;
    forall m | m in members ensures NextItem(g', m, state).Some? && NextItem(g', m, state).value in members {
      CycleIsStructural(g, cycle, m);
      SameStructure(g, g', m);
      assert StaysOn(g', m, cycle, state);
      var j := StructuralMove(g', g'.items[m], state).value[0];
      CycleIsStructural(g, cycle, j);
      SameStructure(g, g', j);
      assert StructuralMove(g', g'.items[m], state).value == [j];
    }
    CycleIterates(g', members, cycle[0], state, |g'.items| + 1);
    CycleIsStructural(g, cycle, cycle[0]);
    SameStructure(g, g', cycle[0]);
    IteratesAreStructural(g', cycle[0], state, |g'.items| + 1);
    UnsettledIterates(g', cycle[0], state, |g'.items| + 1);
    start := cycle[0];
  }

  lemma SameStructure(g: CompiledGraph, g': CompiledGraph, i: nat)
    requires SameShape(g, g')
    ensures IsStructural(g, [i]) == IsStructural(g', [i])
  {
    if i < |g.items| { assert SameItem(g.items[i], g'.items[i]); }
  }

  /** Normalization ends for every router a declaration could be given, from
      every item, exactly when the declaration has no structural cycle. */
  lemma SettlesExactlyWithoutCycle(g: CompiledGraph, state: State)
    requires WellFormed(g)
    ensures !HasStructuralCycle(g) <==>
            forall g': CompiledGraph, i: nat :: SameShape(g, g') ==> !Settle(g', [i], state).Unsettled?
  {
    hide WellFormed, SameShape, IsStructuralCycle;
    forall g': CompiledGraph, i: nat | SameShape(g, g') && Settle(g', [i], state).Unsettled?
      ensures HasStructuralCycle(g)
    {
      SameShapeIsWellFormed(g, g');
      SpinningNeedsCycle(g', [i], state);
      var cycle :| IsStructuralCycle(g', cycle);
      SameShapeSameCycles(g, g', cycle);
    }
    if cycle :| IsStructuralCycle(g, cycle) {
      var g', start := CycleSpins(g, cycle, state);
      assert Settle(g', [start], state).Unsettled?;
    }
  }

  lemma SameShapeSameCycles(g: CompiledGraph, g': CompiledGraph, cycle: seq<nat>)
    requires SameShape(g, g') && IsStructuralCycle(g', cycle)
    ensures IsStructuralCycle(g, cycle)
  {
    forall k | 0 <= k < |cycle| - 1 ensures MayMove(g, cycle[k], cycle[k + 1]) {
      var i, j := cycle[k], cycle[k + 1];
      assert MayMove(g', i, j);
      assert SameItem(g.items[i], g'.items[i]) && SameItem(g.items[j], g'.items[j]);
      var targets :| SingleChoice(g'.items[i].transition, targets) && MoveTargets(g', g'.items[i], targets) == [j];
      assert SingleChoice(g.items[i].transition, targets);
    }
  }
}
