/** A compiled child run alone and run inside a parent, from its entry to its
    exit, side by side. */
module MountedRuns {
  import opened Base
  import opened Domain
  import opened Paths
  import opened Transitions
  import opened Compiled
  import opened Declared
  import opened FrontierCheck
  import opened Flatten
  import opened FlattenSound
  import opened Runtime
  import opened Frontiers
  import opened Runs
  import opened Mounting

  /** The boundaries of at most n super-steps that all commit, the start first.
      By `ScheduleIndependence` any completion order gives the same ones. */
  function Boundaries(g: CompiledGraph, ops: StateOps, mode: CheckpointMode, p: Position, resume: Option<Resume>,
                      n: nat)
    : (boundaries: seq<Position>)
    requires WellFormed(g) && FrontierOk(g, p.frontier)
    ensures |boundaries| >= 1 && boundaries[0] == p
    decreases n
  {
    if n == 0 || p.frontier == [] then [p]
    else
      var order := Identity(|p.frontier|);
      SuperstepKeepsFrontier(g, ops, mode, p, resume, order);
      match Superstep(g, ops, mode, p, resume, order)
      case Advanced(next, _) => [p] + Boundaries(g, ops, mode, next, None, n - 1)
      case _ => [p]
  }

  // ---- the parent may run what the child may run ----

  lemma FrontierOnMount(g: CompiledGraph, c: CompiledGraph, base: nat, prefix: GraphPath, frontier: seq<nat>)
    requires WellFormed(c) && Embeds(g, c, base, prefix) && FrontierOk(c, frontier)
    ensures FrontierOk(g, Lift(frontier, Mapping(base, |c.items|)))
  {
    hide WellFormed, Embeds;
    RealOnMount(g, c, base, prefix, frontier);
    var lifted := Lift(frontier, Mapping(base, |c.items|));
    FrontierSharesNamespace(c, frontier);
    forall k | 0 <= k < |frontier|
      ensures g.items[lifted[k]].graphPath == Prefixed(c.items[frontier[k]].graphPath, prefix)
    {
      PathOnMount(g, c, base, prefix, frontier[k]);
    }
  }

  // ---- entering ----

  ghost predicate StartsChild(g: CompiledGraph, c: CompiledGraph, base: nat, prefix: GraphPath, state: State,
                              child: Normalized, parent: Normalized)
    requires prefix in g.scopeExits
  {
    match child
    case Settled(frontier, bs) =>
      && InGraph(c, frontier)
      && parent == Crossing([Started(prefix)] + PrefixBoundaries(bs, prefix),
                        Settle(g, OnMount(g, c, base, prefix, frontier), state))
    case Misrouted(node, error) => parent == Misrouted(Prefixed(node, prefix), error)
    case Unsettled => parent.Unsettled?
  }

  /** Entering the mount is starting the child: the parent announces the scope
      and stands where the child alone would stand, or past its exit if the
      child has nothing to run. */
  lemma EnteringStartsChild(g: CompiledGraph, c: CompiledGraph, base: nat, prefix: GraphPath, enter: nat, state: State)
    requires Mounted(g, c, base, prefix, enter)
    ensures InGraph(c, TargetIndices(c.entry)) && prefix in g.scopeExits
    ensures StartsChild(g, c, base, prefix, state, Settle(c, TargetIndices(c.entry), state), Settle(g, [enter], state))
  {
    ScopeOf(g, c, base, prefix);
    MountedEntry(g, c, base, prefix, enter, state);
    var start := TargetIndices(c.entry);
    var lifted := OnMount(g, c, base, prefix, start);
    hide WellFormed, Embeds, Normalize, OnMount;
    SettleOnMount(g, c, base, prefix, start, state);
    MovesOnce(g, enter, lifted, state);
    if Settle(c, start, state).Settled? {
      var settled, bs := Settle(c, start, state).frontier, Settle(c, start, state).boundaries;
      CrossingJoins([Started(prefix)], PrefixBoundaries(bs, prefix),
                    Settle(g, OnMount(g, c, base, prefix, settled), state));
    }
  }

  lemma MountedEntry(g: CompiledGraph, c: CompiledGraph, base: nat, prefix: GraphPath, enter: nat, state: State)
    requires Mounted(g, c, base, prefix, enter)
    ensures InGraph(c, TargetIndices(c.entry)) && prefix in g.scopeExits
    ensures StructuralMove(g, g.items[enter], state) == Ok(OnMount(g, c, base, prefix, TargetIndices(c.entry)))
    ensures BoundaryOf(g.items[enter]) == Started(prefix) && IsStructural(g, [enter])
  {
    ScopeOf(g, c, base, prefix);
    EntryOkOf(c);
    hide WellFormed, Embeds;
    if c.entry.Some? {
      assert Lift([c.entry.value], Mapping(base, |c.items|)) == [base + c.entry.value];
    }
  }

  // ---- running ----

  ghost predicate SameRun(g: CompiledGraph, c: CompiledGraph, base: nat, prefix: GraphPath, steps: nat,
                          supersteps: nat, child: seq<Position>, parent: seq<Position>)
    requires prefix in g.scopeExits
  {
    forall k :: 0 <= k < |child| ==> SameBoundary(g, c, base, prefix, steps, supersteps, child[k], parent, k)
  }

  /** The k-th boundary of both runs: the same state and counters; the child's
      frontier in its new slots, or what follows the exit once the child is done. */
  ghost predicate SameBoundary(g: CompiledGraph, c: CompiledGraph, base: nat, prefix: GraphPath, steps: nat,
                               supersteps: nat, child: Position, parent: seq<Position>, k: nat)
    requires prefix in g.scopeExits
  {
    if child.frontier != [] then
      k < |parent| && InGraph(c, child.frontier)
      && parent[k] == MountPosition(c, base, steps, supersteps, child)
    else
      var after := Settle(g, [g.scopeExits[prefix]], child.state);
      after.Settled? ==>
        k < |parent|
        && parent[k] == Position(child.state, child.steps + steps, child.superstep + supersteps, after.frontier)
  }

  /** From any child boundary, the mounted run and the child's own run commit the
      same states in the same super-steps, until the child leaves its scope. */
  lemma {:induction false} MountedRunsAlike(g: CompiledGraph, c: CompiledGraph, base: nat, prefix: GraphPath,
                                            ops: StateOps, mode: CheckpointMode, p: Position, resume: Option<Resume>,
                                            steps: nat, supersteps: nat, n: nat)
    requires WellFormed(g) && WellFormed(c) && Embeds(g, c, base, prefix) && StateOnlyNodes(c)
    requires MountBlind(ops, prefix)
    requires FrontierOk(c, p.frontier) && p.frontier != []
    ensures prefix in g.scopeExits && FrontierOk(g, MountPosition(c, base, steps, supersteps, p).frontier)
    ensures SameRun(g, c, base, prefix, steps, supersteps, Boundaries(c, ops, mode, p, resume, n),
                    Boundaries(g, ops, mode, MountPosition(c, base, steps, supersteps, p),
                               MountResume(resume, base), n))
    decreases n
  {
    hide *;
    ScopeOf(g, c, base, prefix);
    FrontierOnMount(g, c, base, prefix, p.frontier);
    LiftedNonEmpty(c, base, steps, supersteps, p);
    var q, resume' := MountPosition(c, base, steps, supersteps, p), MountResume(resume, base);
    BoundariesUnfold(c, ops, mode, p, resume, n);
    BoundariesUnfold(g, ops, mode, q, resume', n);
    if n == 0 {
      OnlyStart(g, c, base, prefix, steps, supersteps, p, Boundaries(g, ops, mode, q, resume', n));
      return;
    }
    var order := Identity(|p.frontier|);
    SuperstepOnMount(g, c, base, prefix, ops, mode, p, resume, steps, supersteps, order);
    var outcome := Superstep(c, ops, mode, p, resume, order);
    if !outcome.Advanced? {
      OnlyStart(g, c, base, prefix, steps, supersteps, p, Boundaries(g, ops, mode, q, resume', n));
    } else if outcome.next.frontier != [] {
      var next := outcome.next;
      StaysInChild(g, c, base, prefix, steps, supersteps, outcome, Superstep(g, ops, mode, q, resume', order));
      MountedRunsAlike(g, c, base, prefix, ops, mode, next, None, steps, supersteps, n - 1);
      NoResume(base);
      OneStepLonger(g, c, base, prefix, steps, supersteps, p, Boundaries(c, ops, mode, next, None, n - 1),
                    q, Boundaries(g, ops, mode, MountPosition(c, base, steps, supersteps, next), None, n - 1));
    } else {
      LeftTheChild(g, c, base, prefix, ops, mode, p, resume, steps, supersteps, n);
    }
  }

  lemma NoResume(base: nat)
    ensures MountResume(None, base) == None
  {
  }

  lemma LiftedNonEmpty(c: CompiledGraph, base: nat, steps: nat, supersteps: nat, p: Position)
    requires FrontierOk(c, p.frontier) && p.frontier != []
    ensures InGraph(c, p.frontier) && RealNodes(c, p.frontier)
    ensures MountPosition(c, base, steps, supersteps, p).frontier == Lift(p.frontier, Mapping(base, |c.items|))
    ensures |MountPosition(c, base, steps, supersteps, p).frontier| == |p.frontier|
  {
  }

  lemma StaysInChild(g: CompiledGraph, c: CompiledGraph, base: nat, prefix: GraphPath, steps: nat, supersteps: nat,
                     child: StepOutcome, parent: StepOutcome)
    requires prefix in g.scopeExits && child.Advanced? && child.next.frontier != []
    requires FollowsChild(g, c, base, prefix, steps, supersteps, child, parent)
    ensures InGraph(c, child.next.frontier)
    ensures parent.Advanced? && parent.next == MountPosition(c, base, steps, supersteps, child.next)
  {
  }

  lemma BoundariesUnfold(g: CompiledGraph, ops: StateOps, mode: CheckpointMode, p: Position, resume: Option<Resume>,
                         n: nat)
    requires WellFormed(g) && FrontierOk(g, p.frontier)
    ensures RealNodes(g, p.frontier)
    ensures n == 0 || p.frontier == [] ==> Boundaries(g, ops, mode, p, resume, n) == [p]
    ensures n > 0 && p.frontier != [] ==>
              var outcome := Superstep(g, ops, mode, p, resume, Identity(|p.frontier|));
              if outcome.Advanced? then
                FrontierOk(g, outcome.next.frontier)
                && Boundaries(g, ops, mode, p, resume, n) == [p] + Boundaries(g, ops, mode, outcome.next, None, n - 1)
              else Boundaries(g, ops, mode, p, resume, n) == [p]
  {
    hide WellFormed, Superstep, Candidate;
    if n > 0 && p.frontier != [] {
      SuperstepKeepsFrontier(g, ops, mode, p, resume, Identity(|p.frontier|));
    }
  }

  lemma OnlyStart(g: CompiledGraph, c: CompiledGraph, base: nat, prefix: GraphPath, steps: nat, supersteps: nat,
                  p: Position, parent: seq<Position>)
    requires prefix in g.scopeExits && InGraph(c, p.frontier) && p.frontier != []
    requires |parent| > 0 && parent[0] == MountPosition(c, base, steps, supersteps, p)
    ensures SameRun(g, c, base, prefix, steps, supersteps, [p], parent)
  {
  }

  lemma OneStepLonger(g: CompiledGraph, c: CompiledGraph, base: nat, prefix: GraphPath, steps: nat, supersteps: nat,
                      p: Position, rest: seq<Position>, q: Position, rest': seq<Position>)
    requires prefix in g.scopeExits && InGraph(c, p.frontier) && p.frontier != []
    requires q == MountPosition(c, base, steps, supersteps, p)
    requires SameRun(g, c, base, prefix, steps, supersteps, rest, rest')
    ensures SameRun(g, c, base, prefix, steps, supersteps, [p] + rest, [q] + rest')
  {
    hide Settle;
    var child, parent := [p] + rest, [q] + rest';
    forall k | 0 <= k < |child| ensures SameBoundary(g, c, base, prefix, steps, supersteps, child[k], parent, k) {
      if k > 0 {
        assert SameBoundary(g, c, base, prefix, steps, supersteps, rest[k - 1], rest', k - 1);
      }
    }
  }

  lemma LeftTheChild(g: CompiledGraph, c: CompiledGraph, base: nat, prefix: GraphPath,
                     ops: StateOps, mode: CheckpointMode, p: Position, resume: Option<Resume>,
                     steps: nat, supersteps: nat, n: nat)
    requires WellFormed(g) && WellFormed(c) && Embeds(g, c, base, prefix) && n > 0
    requires FrontierOk(c, p.frontier) && p.frontier != [] && prefix in g.scopeExits
    requires FrontierOk(g, MountPosition(c, base, steps, supersteps, p).frontier)
    requires var outcome := Superstep(c, ops, mode, p, resume, Identity(|p.frontier|));
             && outcome.Advanced? && outcome.next.frontier == []
             && FollowsChild(g, c, base, prefix, steps, supersteps, outcome,
                             Superstep(g, ops, mode, MountPosition(c, base, steps, supersteps, p),
                                       MountResume(resume, base), Identity(|p.frontier|)))
    ensures SameRun(g, c, base, prefix, steps, supersteps, Boundaries(c, ops, mode, p, resume, n),
                    Boundaries(g, ops, mode, MountPosition(c, base, steps, supersteps, p),
                               MountResume(resume, base), n))
  {
    hide WellFormed, Embeds, Superstep, Candidate, Settle, Boundaries, MountPosition;
    var q, resume' := MountPosition(c, base, steps, supersteps, p), MountResume(resume, base);
    var order := Identity(|p.frontier|);
    var next := Superstep(c, ops, mode, p, resume, order).next;
    BoundariesUnfold(c, ops, mode, p, resume, n);
    BoundariesUnfold(c, ops, mode, next, None, n - 1);
    LiftedNonEmpty(c, base, steps, supersteps, p);
    BoundariesUnfold(g, ops, mode, q, resume', n);
    ExitSettlesOnNodes(g, prefix, next.state);
  }

  /** One item is never beside another, so leaving a scope cannot panic. */
  lemma ExitSettlesOnNodes(g: CompiledGraph, prefix: GraphPath, state: State)
    requires WellFormed(g) && prefix in g.scopeExits
    ensures var after := Settle(g, [g.scopeExits[prefix]], state);
            after.Settled? ==> RealNodes(g, after.frontier)
  {
    hide WellFormed, Normalize;
    ScopeExitIsCandidate(g, prefix);
    NormalizeSettlesOnNodes(g, [g.scopeExits[prefix]], state, |g.items| + 1);
  }

  // ---- visited paths ----

  function MountPositions(c: CompiledGraph, base: nat, steps: nat, supersteps: nat, positions: seq<Position>)
    : (r: seq<Position>)
    requires forall k :: 0 <= k < |positions| ==> InGraph(c, positions[k].frontier)
    ensures |r| == |positions|
    ensures forall k :: 0 <= k < |r| ==> r[k] == MountPosition(c, base, steps, supersteps, positions[k])
  {
    seq(|positions|, k requires 0 <= k < |positions| => MountPosition(c, base, steps, supersteps, positions[k]))
  }

  /** The nodes both runs execute have the same paths up to the mount's prefix. */
  lemma {:induction false} VisitedOnMount(g: CompiledGraph, c: CompiledGraph, base: nat, prefix: GraphPath,
                                          positions: seq<Position>, steps: nat, supersteps: nat)
    requires Embeds(g, c, base, prefix)
    requires AllReal(c, positions)
    ensures forall k :: 0 <= k < |positions| ==> InGraph(c, positions[k].frontier)
    ensures var lifted := MountPositions(c, base, steps, supersteps, positions);
            AllReal(g, lifted) && Visited(g, lifted) == PrefixPaths(Visited(c, positions), prefix)
  {
    hide Embeds, RealNodes;
    forall k | 0 <= k < |positions| ensures InGraph(c, positions[k].frontier) {
      RealPosition(g, c, base, prefix, steps, supersteps, positions[k]);
    }
    var lifted := MountPositions(c, base, steps, supersteps, positions);
    forall k | 0 <= k < |lifted| ensures RealNodes(g, lifted[k].frontier) {
      RealPosition(g, c, base, prefix, steps, supersteps, positions[k]);
    }
    if positions != [] {
      VisitedOnMount(g, c, base, prefix, positions[1..], steps, supersteps);
      assert lifted[1..] == MountPositions(c, base, steps, supersteps, positions[1..]);
      PathsOnMount(g, c, base, prefix, positions[0], steps, supersteps);
      PrefixPathsJoin(PathsOf(c, positions[0].frontier), Visited(c, positions[1..]), prefix);
    }
  }

  lemma PathsOnMount(g: CompiledGraph, c: CompiledGraph, base: nat, prefix: GraphPath, p: Position, steps: nat,
                     supersteps: nat)
    requires Embeds(g, c, base, prefix) && RealNodes(c, p.frontier)
    ensures RealNodes(g, MountPosition(c, base, steps, supersteps, p).frontier)
    ensures PathsOf(g, MountPosition(c, base, steps, supersteps, p).frontier)
            == PrefixPaths(PathsOf(c, p.frontier), prefix)
  {
    hide Embeds;
    RealPosition(g, c, base, prefix, steps, supersteps, p);
    forall k | 0 <= k < |p.frontier|
      ensures PathAt(g, base + p.frontier[k]) == Prefixed(PathAt(c, p.frontier[k]), prefix)
    {
      PathOnMount(g, c, base, prefix, p.frontier[k]);
    }
  }

  lemma PrefixPathsJoin(a: seq<NodePath>, b: seq<NodePath>, prefix: GraphPath)
    ensures PrefixPaths(a + b, prefix) == PrefixPaths(a, prefix) + PrefixPaths(b, prefix)
  {
  }

  // ---- every mount of a compiled graph ----

  /** `compile` mounts each child as the theorems above require. */
  lemma CompiledMountsAreMounted(d: Declaration, g: CompiledGraph, k: nat)
    requires ValidDeclaration(d) && DeclarationFault(d).None? && MountsAlone(d) && Flattens(d, g)
    requires k < |d.items| && d.items[k].item.SubgraphItem?
    ensures Mounted(g, d.items[k].item.graph, BlockBase(d.items, k), [d.items[k].id], Slot(d.items, k))
  {
    hide WellFormed, EdgeFault, ShapeFault, ReachabilityFault, MountsAlone, Assembled, CompileTransition, Embeds,
         StoredTargeted;
    var agg, entries :| Assembled(d, agg, entries, g);
    ReadyFrom(d, agg, entries, g);
    FlatteningIsWellFormed(d, agg, entries, g);
    HeaderItems(d, agg, entries, g, k);
    ExitOfMount(g, Slot(d.items, k) + 1);
  }

  lemma ExitOfMount(g: CompiledGraph, i: nat)
    requires WellFormed(g) && i < |g.items| && g.items[i].ExitSubgraph?
    ensures g.items[i].graphPath in g.scopeExits && g.scopeExits[g.items[i].graphPath] == i
  {
    assert Somes(g.items)[i].value.ExitSubgraph?;
  }
}
