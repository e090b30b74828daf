/** The frontier invariant of every reachable execution
    (crates/group-agent-core/src/runtime.rs:786-828, 907-974). */
module Frontiers {
  import opened Base
  import opened Domain
  import opened Paths
  import opened Transitions
  import opened Compiled
  import opened Runtime

  // ---- what every frontier is ----

  ghost predicate OneSpace(g: CompiledGraph, frontier: seq<nat>) {
    forall i, j :: 0 <= i < |frontier| && 0 <= j < |frontier| && frontier[i] < |g.items| && frontier[j] < |g.items| ==>
      Space(g.items[frontier[i]]) == Space(g.items[frontier[j]])
  }

  /** A frontier as routing leaves it: ascending, in the graph, in one namespace. */
  ghost predicate Candidate(g: CompiledGraph, frontier: seq<nat>) {
    InGraph(g, frontier) && StrictlyAscending(frontier) && OneSpace(g, frontier)
  }

  /** A frontier a super-step can run, and what checkpoint validation asks for. */
  ghost predicate FrontierOk(g: CompiledGraph, frontier: seq<nat>) {
    Candidate(g, frontier) && RealNodes(g, frontier)
  }

  /** All members of a frontier live in one graph namespace. */
  lemma FrontierSharesNamespace(g: CompiledGraph, frontier: seq<nat>)
    requires FrontierOk(g, frontier)
    ensures forall i, j :: 0 <= i < |frontier| && 0 <= j < |frontier| ==>
              g.items[frontier[i]].graphPath == g.items[frontier[j]].graphPath
  {
    forall i, j | 0 <= i < |frontier| && 0 <= j < |frontier|
      ensures g.items[frontier[i]].graphPath == g.items[frontier[j]].graphPath
    {
      assert Space(g.items[frontier[i]]) == Space(g.items[frontier[j]]);
    }
  }

  lemma LinkOf(g: CompiledGraph, i: nat, t: nat)
    requires WellFormed(g) && i < |g.items| && t in TargetSet(g.items[i].transition)
    ensures t < |g.items| && LinkOk(g.items[i], g.items[t])
  {
    assert ItemOk(g, i);
  }

  ghost predicate AllInSpace(g: CompiledGraph, targets: seq<nat>, space: GraphPath) {
    forall x :: x in targets ==> x < |g.items| && Space(g.items[x]) == space
  }

  /** One source activates one namespace. */
  lemma OneSourceOneSpace(g: CompiledGraph, i: nat, state: State)
    requires WellFormed(g) && i < |g.items| && RouteTargets(g.items[i].transition, state).Ok?
    ensures AllInSpace(g, RouteTargets(g.items[i].transition, state).value, Home(g.items[i]))
  {
    hide WellFormed, RouteTargets;
    ResolutionStaysDeclared(g.items[i].transition, state);
    forall x | x in RouteTargets(g.items[i].transition, state).value
      ensures x < |g.items| && Space(g.items[x]) == Home(g.items[i])
    {
      LinkOf(g, i, x);
    }
  }

  lemma {:induction false} RoutedShareSpace(g: CompiledGraph, frontier: seq<nat>, state: State, space: GraphPath)
    requires WellFormed(g) && RealNodes(g, frontier) && RouteAll(g, frontier, state).Ok?
    requires forall k :: 0 <= k < |frontier| ==> g.items[frontier[k]].graphPath == space
    ensures AllInSpace(g, RouteAll(g, frontier, state).value, space)
  {
    hide WellFormed, RouteTargets;
    if frontier != [] {
      var n := |frontier| - 1;
      RoutedShareSpace(g, frontier[..n], state, space);
      OneSourceOneSpace(g, frontier[n], state);
    }
  }

  lemma ScopeExitIsCandidate(g: CompiledGraph, scope: GraphPath)
    requires WellFormed(g) && scope in g.scopeExits
    ensures Candidate(g, [g.scopeExits[scope]])
  {
    assert Somes(g.items)[g.scopeExits[scope]].Some?;
  }

  lemma NextFrontierIsCandidate(g: CompiledGraph, scope: GraphPath, targets: seq<nat>, space: GraphPath)
    requires WellFormed(g) && AllInSpace(g, targets, space)
    ensures Candidate(g, NextFrontier(g, scope, targets))
  {
    hide WellFormed, Space;
    var sorted := SortDedup(targets);
    SortDedupSorts(targets);
    forall k | 0 <= k < |sorted| ensures sorted[k] < |g.items| && Space(g.items[sorted[k]]) == space {
      assert sorted[k] in sorted && sorted[k] in targets;
    }
    if sorted == [] && scope in g.scopeExits { ScopeExitIsCandidate(g, scope); }
  }

  /** Routing a frontier and leaving a scope with nothing to run. */
  lemma RoutedIsCandidate(g: CompiledGraph, frontier: seq<nat>, state: State)
    requires WellFormed(g) && FrontierOk(g, frontier) && frontier != [] && RouteAll(g, frontier, state).Ok?
    ensures Candidate(g, NextFrontier(g, g.items[frontier[0]].graphPath, RouteAll(g, frontier, state).value))
  {
    hide WellFormed, Candidate, NextFrontier, RouteAll;
    var space := g.items[frontier[0]].graphPath;
    FrontierSharesNamespace(g, frontier);
    RoutedShareSpace(g, frontier, state, space);
    NextFrontierIsCandidate(g, space, RouteAll(g, frontier, state).value, space);
  }

  lemma EnterTargetsOne(g: CompiledGraph, i: nat, state: State)
    requires WellFormed(g) && i < |g.items| && g.items[i].EnterSubgraph?
    ensures RouteTargets(g.items[i].transition, state).Ok?
    ensures |RouteTargets(g.items[i].transition, state).value| == 1
  {
    assert ItemOk(g, i);
  }

  lemma MoveKeepsCandidate(g: CompiledGraph, i: nat, state: State)
    requires WellFormed(g) && i < |g.items| && !g.items[i].Node?
    requires StructuralMove(g, g.items[i], state).Ok?
    ensures Candidate(g, StructuralMove(g, g.items[i], state).value)
  {
    hide WellFormed, RouteTargets, NextFrontier;
    OneSourceOneSpace(g, i, state);
    if g.items[i].EnterSubgraph? {
      EnterTargetsOne(g, i, state);
      assert RouteTargets(g.items[i].transition, state).value[0] in RouteTargets(g.items[i].transition, state).value;
    } else {
      NextFrontierIsCandidate(g, ParentOf(g.items[i].mountPath), RouteTargets(g.items[i].transition, state).value,
                              Home(g.items[i]));
    }
  }

  lemma {:induction false} NormalizeKeepsCandidate(g: CompiledGraph, frontier: seq<nat>, state: State, fuel: nat)
    requires WellFormed(g) && Candidate(g, frontier)
    ensures Normalize(g, frontier, state, fuel).Settled? ==>
              Candidate(g, Normalize(g, frontier, state, fuel).frontier)
    decreases fuel
  {
    hide WellFormed, StructuralMove, Candidate;
    CandidateIndices(g, frontier);
    if IsStructural(g, frontier) {
      if fuel > 0 && StructuralMove(g, g.items[frontier[0]], state).Ok? {
        MoveKeepsCandidate(g, frontier[0], state);
        NormalizeKeepsCandidate(g, StructuralMove(g, g.items[frontier[0]], state).value, state, fuel - 1);
      }
    }
  }

  lemma SettleKeepsCandidate(g: CompiledGraph, frontier: seq<nat>, state: State)
    requires WellFormed(g) && Candidate(g, frontier)
    ensures Settle(g, frontier, state).Settled? ==> Candidate(g, Settle(g, frontier, state).frontier)
  {
    NormalizeKeepsCandidate(g, frontier, state, |g.items| + 1);
  }

  lemma CandidateIndices(g: CompiledGraph, frontier: seq<nat>)
    requires Candidate(g, frontier)
    ensures InGraph(g, frontier)
  {
  }

  /** Every committed super-step leaves a frontier that is strictly ascending,
      lies in one namespace and holds only real nodes. */
  lemma SuperstepKeepsFrontier(g: CompiledGraph, ops: StateOps, mode: CheckpointMode, p: Position,
                               resume: Option<Resume>, order: seq<nat>)
    requires WellFormed(g) && FrontierOk(g, p.frontier) && p.frontier != []
    requires IsCompletionOrder(order, |p.frontier|)
    ensures var outcome := Superstep(g, ops, mode, p, resume, order);
            outcome.Advanced? ==> FrontierOk(g, outcome.next.frontier)
  {
    hide WellFormed, CommitFrontier, IsCompletionOrder, NextFrontier, Normalize, RouteAll, Candidate;
    var commit := CommitFrontier(g, ops, mode, p, resume, order);
    if commit.Committed? && RouteAll(g, p.frontier, commit.state).Ok? {
      var scope, targets := g.items[p.frontier[0]].graphPath, RouteAll(g, p.frontier, commit.state).value;
      RoutedIsCandidate(g, p.frontier, commit.state);
      NormalizeKeepsCandidate(g, NextFrontier(g, scope, targets), commit.state, |g.items| + 1);
    }
  }

  // ---- frontiers that never meet a mount beside another item ----

  lemma PairIsReal(g: CompiledGraph, depth: nat, x: nat, y: nat)
    requires WellFormed(g) && CoActive(g.items, depth, x, y)
    ensures x < |g.items| && y < |g.items| && g.items[x].Node? && g.items[y].Node?
  {
  }

  /** Items u and v may share a frontier `depth` super-steps after x and y do. */
  ghost predicate PairReaches(items: seq<CompiledItem>, depth: nat, x: nat, y: nat, u: nat, v: nat)
    decreases depth
  {
    if depth == 0 then u == x && v == y
    else u != v && exists i, j :: PairReaches(items, depth - 1, x, y, i, j) && ActivatesEach(items, i, j, u, v)
  }

  ghost predicate RealPair(items: seq<CompiledItem>, u: nat, v: nat) {
    u < |items| && v < |items| && items[u].Node? && items[v].Node?
  }

  /** Whatever x and y lead to together is real nodes. */
  ghost predicate Benign(items: seq<CompiledItem>, x: nat, y: nat) {
    forall depth: nat, u: nat, v: nat :: PairReaches(items, depth, x, y, u, v) ==> RealPair(items, u, v)
  }

  /** The co-active closure seeded with the pairs of this frontier holds only real
      nodes. */
  ghost predicate Harmless(g: CompiledGraph, frontier: seq<nat>) {
    forall i, j :: 0 <= i < j < |frontier| ==> Benign(g.items, frontier[i], frontier[j])
  }

  lemma {:induction false} CoActiveReaches(items: seq<CompiledItem>, before: nat, x: nat, y: nat, depth: nat, u: nat,
                                           v: nat)
    requires CoActive(items, before, x, y) && PairReaches(items, depth, x, y, u, v)
    ensures CoActive(items, before + depth, u, v)
    decreases depth
  {
    if depth > 0 {
      var i: nat, j: nat :| PairReaches(items, depth - 1, x, y, i, j) && ActivatesEach(items, i, j, u, v);
      CoActiveReaches(items, before, x, y, depth - 1, i, j);
    }
  }

  /** Pairs the compile-time check covers are benign. */
  lemma CoActiveIsBenign(g: CompiledGraph, depth: nat, x: nat, y: nat)
    requires WellFormed(g) && CoActive(g.items, depth, x, y)
    ensures Benign(g.items, x, y)
  {
    hide WellFormed;
    forall more: nat, u: nat, v: nat | PairReaches(g.items, more, x, y, u, v) ensures RealPair(g.items, u, v) {
      CoActiveReaches(g.items, depth, x, y, more, u, v);
      PairIsReal(g, depth + more, u, v);
    }
  }

  lemma {:induction false} ReachesLater(items: seq<CompiledItem>, i: nat, j: nat, x: nat, y: nat, depth: nat, u: nat,
                                        v: nat)
    requires x != y && ActivatesEach(items, i, j, x, y) && PairReaches(items, depth, x, y, u, v)
    ensures PairReaches(items, depth + 1, i, j, u, v)
    decreases depth
  {
    if depth == 0 {
      assert PairReaches(items, 0, i, j, i, j);
    } else {
      var k: nat, l: nat :| PairReaches(items, depth - 1, x, y, k, l) && ActivatesEach(items, k, l, u, v);
      ReachesLater(items, i, j, x, y, depth - 1, k, l);
    }
  }

  lemma SuccessorsAreBenign(items: seq<CompiledItem>, i: nat, j: nat, x: nat, y: nat)
    requires Benign(items, i, j) && x != y && ActivatesEach(items, i, j, x, y)
    ensures Benign(items, x, y)
  {
    forall depth: nat, u: nat, v: nat | PairReaches(items, depth, x, y, u, v) ensures RealPair(items, u, v) {
      ReachesLater(items, i, j, x, y, depth, u, v);
    }
  }

  lemma {:induction false} ReachesSwapped(items: seq<CompiledItem>, depth: nat, x: nat, y: nat, u: nat, v: nat)
    requires PairReaches(items, depth, x, y, u, v)
    ensures PairReaches(items, depth, y, x, v, u)
    decreases depth
  {
    if depth > 0 {
      var i: nat, j: nat :| PairReaches(items, depth - 1, x, y, i, j) && ActivatesEach(items, i, j, u, v);
      ReachesSwapped(items, depth - 1, x, y, i, j);
      assert ActivatesEach(items, j, i, v, u);
    }
  }

  lemma BenignIsSymmetric(items: seq<CompiledItem>, x: nat, y: nat)
    requires Benign(items, x, y)
    ensures Benign(items, y, x)
  {
    forall depth: nat, u: nat, v: nat | PairReaches(items, depth, y, x, u, v) ensures RealPair(items, u, v) {
      ReachesSwapped(items, depth, y, x, u, v);
    }
  }

  lemma BenignIsReal(items: seq<CompiledItem>, x: nat, y: nat)
    requires Benign(items, x, y)
    ensures RealPair(items, x, y)
  {
    assert PairReaches(items, 0, x, y, x, y);
  }

  /** No harmless frontier of two or more holds a structural item, even before
      normalization. */
  lemma ParallelFrontierIsReal(g: CompiledGraph, frontier: seq<nat>)
    requires Harmless(g, frontier) && |frontier| >= 2
    ensures RealNodes(g, frontier)
  {
    hide Benign;
    forall k | 0 <= k < |frontier| ensures frontier[k] < |g.items| && g.items[frontier[k]].Node? {
      if k == 0 { BenignIsReal(g.items, frontier[0], frontier[1]); }
      else { BenignIsReal(g.items, frontier[0], frontier[k]); }
    }
  }

  // ---- routing keeps a frontier harmless ----

  ghost predicate AllBenign(g: CompiledGraph, targets: seq<nat>) {
    forall x, y :: x in targets && y in targets && x != y ==> Benign(g.items, x, y)
  }

  lemma OneSourceIsBenign(g: CompiledGraph, i: nat, state: State)
    requires WellFormed(g) && i < |g.items| && RouteTargets(g.items[i].transition, state).Ok?
    ensures AllBenign(g, RouteTargets(g.items[i].transition, state).value)
  {
    hide WellFormed, RouteTargets, Benign;
    var t := g.items[i].transition;
    var targets := RouteTargets(t, state).value;
    ResolutionStaysDeclared(t, state);
    forall x, y | x in targets && y in targets && x != y ensures Benign(g.items, x, y) {
      assert ActivatesBoth(g.items, i, x, y);
      assert CoActive(g.items, 1, x, y);
      CoActiveIsBenign(g, 1, x, y);
    }
  }

  lemma {:induction false} RoutedIsBenign(g: CompiledGraph, frontier: seq<nat>, state: State)
    requires WellFormed(g) && InGraph(g, frontier) && Harmless(g, frontier) && RouteAll(g, frontier, state).Ok?
    ensures AllBenign(g, RouteAll(g, frontier, state).value)
    ensures forall x :: x in RouteAll(g, frontier, state).value ==>
              exists k :: 0 <= k < |frontier| && x in TargetSet(g.items[frontier[k]].transition)
  {
    hide WellFormed, RouteTargets, Benign;
    if frontier != [] {
      var n := |frontier| - 1;
      var earlier, last := frontier[..n], frontier[n];
      RoutedIsBenign(g, earlier, state);
      var before, after := RouteAll(g, earlier, state).value, RouteTargets(g.items[last].transition, state).value;
      OneSourceIsBenign(g, last, state);
      ResolutionStaysDeclared(g.items[last].transition, state);
      forall x, y | x in before && y in after && x != y ensures Benign(g.items, x, y) && Benign(g.items, y, x) {
        var k :| 0 <= k < |earlier| && x in TargetSet(g.items[earlier[k]].transition);
        assert frontier[k] == earlier[k];
        SuccessorsAreBenign(g.items, frontier[k], last, x, y);
        BenignIsSymmetric(g.items, x, y);
      }
    }
  }

  lemma NextFrontierIsHarmless(g: CompiledGraph, scope: GraphPath, targets: seq<nat>)
    requires AllBenign(g, targets)
    ensures Harmless(g, NextFrontier(g, scope, targets))
  {
    hide Benign;
    var sorted := SortDedup(targets);
    SortDedupSorts(targets);
    forall i, j | 0 <= i < j < |sorted| ensures Benign(g.items, sorted[i], sorted[j]) {
      assert sorted[i] in sorted && sorted[j] in sorted;
    }
  }

  lemma MoveKeepsHarmless(g: CompiledGraph, i: nat, state: State)
    requires WellFormed(g) && i < |g.items| && !g.items[i].Node?
    requires StructuralMove(g, g.items[i], state).Ok?
    ensures Harmless(g, StructuralMove(g, g.items[i], state).value)
  {
    hide WellFormed, RouteTargets, NextFrontier, Benign;
    OneSourceIsBenign(g, i, state);
    if g.items[i].EnterSubgraph? {
      EnterTargetsOne(g, i, state);
    } else {
      NextFrontierIsHarmless(g, ParentOf(g.items[i].mountPath), RouteTargets(g.items[i].transition, state).value);
    }
  }

  /** Normalization settles a harmless frontier on real nodes: the debug assertion
      inside it cannot fail. */
  lemma {:induction false} NormalizeSettlesOnNodes(g: CompiledGraph, frontier: seq<nat>, state: State, fuel: nat)
    requires WellFormed(g) && Candidate(g, frontier) && Harmless(g, frontier)
    ensures Normalize(g, frontier, state, fuel).Settled? ==>
              var settled := Normalize(g, frontier, state, fuel).frontier;
              FrontierOk(g, settled) && Harmless(g, settled)
    decreases fuel
  {
    hide WellFormed, StructuralMove, Harmless, OneSpace, StrictlyAscending;
    if IsStructural(g, frontier) {
      if fuel > 0 && StructuralMove(g, g.items[frontier[0]], state).Ok? {
        MoveKeepsCandidate(g, frontier[0], state);
        MoveKeepsHarmless(g, frontier[0], state);
        NormalizeSettlesOnNodes(g, StructuralMove(g, g.items[frontier[0]], state).value, state, fuel - 1);
      }
    } else if |frontier| >= 2 {
      ParallelFrontierIsReal(g, frontier);
    }
  }

  /** A harmless frontier stays harmless and never makes a super-step panic, so
      `node_at` never meets a structural slot. */
  lemma SuperstepStaysHarmless(g: CompiledGraph, ops: StateOps, mode: CheckpointMode, p: Position,
                               resume: Option<Resume>, order: seq<nat>)
    requires WellFormed(g) && FrontierOk(g, p.frontier) && p.frontier != [] && Harmless(g, p.frontier)
    requires IsCompletionOrder(order, |p.frontier|)
    ensures var outcome := Superstep(g, ops, mode, p, resume, order);
            && !outcome.Panicking?
            && (outcome.Advanced? ==> Harmless(g, outcome.next.frontier))
  {
    hide WellFormed, CommitFrontier, IsCompletionOrder, NextFrontier, Normalize, RouteAll, Harmless, OneSpace,
         StrictlyAscending;
    var commit := CommitFrontier(g, ops, mode, p, resume, order);
    if commit.Committed? && RouteAll(g, p.frontier, commit.state).Ok? {
      var scope, targets := g.items[p.frontier[0]].graphPath, RouteAll(g, p.frontier, commit.state).value;
      RoutedIsCandidate(g, p.frontier, commit.state);
      RoutedIsBenign(g, p.frontier, commit.state);
      NextFrontierIsHarmless(g, scope, targets);
      NormalizeSettlesOnNodes(g, NextFrontier(g, scope, targets), commit.state, |g.items| + 1);
    }
  }

  /** A run starts on such a frontier. */
  lemma EntryFrontierIsOk(g: CompiledGraph, state: State)
    requires WellFormed(g)
    ensures var entered := Settle(g, TargetIndices(g.entry), state);
            entered.Settled? ==> FrontierOk(g, entered.frontier) && Harmless(g, entered.frontier)
  {
    NormalizeSettlesOnNodes(g, TargetIndices(g.entry), state, |g.items| + 1);
  }
}
