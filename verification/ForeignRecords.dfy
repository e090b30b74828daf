/** Records no run of this graph wrote: which accepted frontiers the runtime can
    continue without panicking
    (crates/group-agent-core/src/runtime.rs:420-455, 786-828, 914-924, 1736-1822;
     crates/group-agent-core/src/graph.rs:984-993). */
module ForeignRecords {
  import opened Base
  import opened Domain
  import opened Paths
  import opened Transitions
  import opened Compiled
  import opened Runtime
  import opened Frontiers
  import opened Settling
  import opened Runs
  import opened Records

  // ---- the statement ----

  ghost predicate RunsSafely(g: CompiledGraph, frontier: seq<nat>)
    requires WellFormed(g) && FrontierOk(g, frontier)
  {
    forall ops, mode, p: Position, resume, limit: nat, maxSteps: nat, schedule ::
      p.frontier == frontier && CompletesAll(schedule) ==>
        !Run(g, ops, mode, p, resume, limit, maxSteps, schedule).ending.Panicked?
  }

  /** No run from this frontier panics, whatever the routers, the nodes and the
      reducers compute. */
  ghost predicate NeverPanics(g: CompiledGraph, frontier: seq<nat>) {
    forall g' :: SameShape(g, g') && WellFormed(g') && FrontierOk(g', frontier) ==> RunsSafely(g', frontier)
  }

  /** A state that can count: the routers can tell the super-steps apart. */
  ghost predicate Counts(clock: nat -> State) { forall m, n :: clock(m) == clock(n) ==> m == n }

  // ---- a harmless frontier is safe under every router ----

  lemma SameShapeActivates(g: CompiledGraph, g': CompiledGraph, i: nat, j: nat, x: nat, y: nat)
    requires SameShape(g, g')
    ensures ActivatesEach(g.items, i, j, x, y) <==> ActivatesEach(g'.items, i, j, x, y)
    ensures RealPair(g.items, x, y) <==> RealPair(g'.items, x, y)
  {
    hide SameBut;
    if i < |g.items| {
      assert SameItem(g.items[i], g'.items[i]);
      SameTargets(g.items[i].transition, g'.items[i].transition);
    }
    if j < |g.items| {
      assert SameItem(g.items[j], g'.items[j]);
      SameTargets(g.items[j].transition, g'.items[j].transition);
    }
    if x < |g.items| { assert SameItem(g.items[x], g'.items[x]); }
    if y < |g.items| { assert SameItem(g.items[y], g'.items[y]); }
  }

  lemma SameTargets(t: CompiledTransition, t': CompiledTransition)
    requires SameBut(t, t')
    ensures TargetSet(t) == TargetSet(t')
  {
  }

  lemma {:induction false} SameShapeReaches(g: CompiledGraph, g': CompiledGraph, depth: nat, x: nat, y: nat,
                                            u: nat, v: nat)
    requires SameShape(g, g') && PairReaches(g'.items, depth, x, y, u, v)
    ensures PairReaches(g.items, depth, x, y, u, v)
    decreases depth
  {
    hide SameShape, ActivatesEach;
    if depth > 0 {
      var i: nat, j: nat :| PairReaches(g'.items, depth - 1, x, y, i, j) && ActivatesEach(g'.items, i, j, u, v);
      SameShapeReaches(g, g', depth - 1, x, y, i, j);
      SameShapeActivates(g, g', i, j, u, v);
    }
  }

  lemma SameShapeHarmless(g: CompiledGraph, g': CompiledGraph, frontier: seq<nat>)
    requires SameShape(g, g') && Harmless(g, frontier)
    ensures Harmless(g', frontier)
  {
    hide SameShape, PairReaches, RealPair;
    forall a, b | 0 <= a < b < |frontier| ensures Benign(g'.items, frontier[a], frontier[b]) {
      assert Benign(g.items, frontier[a], frontier[b]);
      forall depth: nat, u: nat, v: nat | PairReaches(g'.items, depth, frontier[a], frontier[b], u, v)
        ensures RealPair(g'.items, u, v)
      {
        SameShapeReaches(g, g', depth, frontier[a], frontier[b], u, v);
        SameShapeActivates(g, g', 0, 0, u, v);
      }
    }
  }

  lemma HarmlessIsSafe(g: CompiledGraph, frontier: seq<nat>)
    requires Harmless(g, frontier)
    ensures NeverPanics(g, frontier)
  {
    hide SameShape, WellFormed, FrontierOk, Harmless, Run, CompletesAll;
    forall g': CompiledGraph | SameShape(g, g') && WellFormed(g') && FrontierOk(g', frontier)
      ensures RunsSafely(g', frontier)
    {
      SameShapeHarmless(g, g', frontier);
      forall ops, mode, p: Position, resume, limit: nat, maxSteps: nat, schedule
        | p.frontier == frontier && CompletesAll(schedule)
        ensures !Run(g', ops, mode, p, resume, limit, maxSteps, schedule).ending.Panicked?
      {
        HarmlessRunsNeverPanic(g', ops, mode, p, resume, limit, maxSteps, schedule);
      }
    }
  }

  // ---- the way to a mount beside another item ----

  ghost predicate Linked(items: seq<CompiledItem>, xs: seq<nat>, ys: seq<nat>, k: nat)
    requires k + 1 < |xs| && k + 1 < |ys|
  {
    xs[k + 1] != ys[k + 1] && ActivatesEach(items, xs[k], ys[k], xs[k + 1], ys[k + 1])
  }

  /** Two items and what each leads to, side by side. */
  ghost predicate PairPath(items: seq<CompiledItem>, xs: seq<nat>, ys: seq<nat>) {
    && |xs| == |ys| > 0 && xs[0] != ys[0]
    && forall k: nat :: k + 1 < |xs| ==> Linked(items, xs, ys, k)
  }

  lemma {:induction false} PathTo(items: seq<CompiledItem>, depth: nat, x: nat, y: nat, u: nat, v: nat)
    returns (xs: seq<nat>, ys: seq<nat>)
    requires x != y && PairReaches(items, depth, x, y, u, v)
    ensures PairPath(items, xs, ys) && xs[0] == x && ys[0] == y && xs[|xs| - 1] == u && ys[|ys| - 1] == v
    decreases depth
  {
    hide ActivatesEach;
    if depth == 0 {
      xs, ys := [x], [y];
    } else {
      var i: nat, j: nat :| PairReaches(items, depth - 1, x, y, i, j) && ActivatesEach(items, i, j, u, v);
      var xs0, ys0 := PathTo(items, depth - 1, x, y, i, j);
      xs, ys := xs0 + [u], ys0 + [v];
      forall k: nat | k + 1 < |xs| ensures Linked(items, xs, ys, k) {
        if k + 1 < |xs0| { assert Linked(items, xs0, ys0, k); }
      }
    }
  }

  /** From a frontier that is not harmless some pair of it leads to a mount, or
      a scope's exit, beside another item. */
  lemma HarmfulPath(g: CompiledGraph, frontier: seq<nat>) returns (xs: seq<nat>, ys: seq<nat>)
    requires !Harmless(g, frontier) && StrictlyAscending(frontier)
    ensures PairPath(g.items, xs, ys) && xs[0] in frontier && ys[0] in frontier
    ensures !RealPair(g.items, xs[|xs| - 1], ys[|ys| - 1])
  {
    hide PairReaches, RealPair, PairPath;
    var a, b :| 0 <= a < b < |frontier| && !Benign(g.items, frontier[a], frontier[b]);
    var depth: nat, u: nat, v: nat :|
      PairReaches(g.items, depth, frontier[a], frontier[b], u, v) && !RealPair(g.items, u, v);
    xs, ys := PathTo(g.items, depth, frontier[a], frontier[b], u, v);
    PathEnds(g.items, xs, ys);
  }

  lemma PathEnds(items: seq<CompiledItem>, xs: seq<nat>, ys: seq<nat>)
    requires PairPath(items, xs, ys)
    ensures |xs| == |ys| > 0
  {
  }

  // ---- routers that follow it ----

  /** Which super-step this state belongs to. */
  ghost function TimeOf(clock: nat -> State, state: State): nat {
    if exists n: nat :: clock(n) == state then
      var n: nat :| clock(n) == state; n
    else 0
  }

  ghost function Tick(clock: nat -> State, state: State): State { clock(TimeOf(clock, state) + 1) }

  lemma TimeIs(clock: nat -> State, n: nat)
    requires Counts(clock)
    ensures TimeOf(clock, clock(n)) == n && Tick(clock, clock(n)) == clock(n + 1)
  {
  }

  /** Where item i has to lead in the super-step that ends at time n. */
  ghost function Wanted(xs: seq<nat>, ys: seq<nat>, n: nat, i: nat): Option<nat> {
    if 0 < n < |xs| && xs[n - 1] == i then Some(xs[n])
    else if 0 < n < |ys| && ys[n - 1] == i then Some(ys[n])
    else None
  }

  ghost predicate CanLead(allowed: Whitelist, wanted: Option<nat>) {
    wanted.Some? && exists id :: id in allowed && allowed[id] == wanted
  }

  ghost function Steer(allowed: Whitelist, wanted: Option<nat>): (id: NodeId)
    requires exists id :: id in allowed
    ensures id in allowed && (CanLead(allowed, wanted) ==> allowed[id] == wanted)
  {
    if CanLead(allowed, wanted) then
      var id :| id in allowed && allowed[id] == wanted; id
    else
      var id :| id in allowed; id
  }

  ghost function Steered(t: CompiledTransition, clock: nat -> State, xs: seq<nat>, ys: seq<nat>, i: nat)
    : CompiledTransition
    requires HasChoice(t)
  {
    match t
    case Conditional(_, allowed) =>
      Conditional((s: State) => Ok(Steer(allowed, Wanted(xs, ys, TimeOf(clock, s), i))), allowed)
    case ConditionalFanOut(_, allowed) =>
      ConditionalFanOut((s: State) => Ok([Steer(allowed, Wanted(xs, ys, TimeOf(clock, s), i))]), allowed)
    case _ => t
  }

  lemma SteeredRoutes(t: CompiledTransition, clock: nat -> State, xs: seq<nat>, ys: seq<nat>, i: nat, n: nat)
    requires HasChoice(t) && Counts(clock)
    ensures SameBut(t, Steered(t, clock, xs, ys, i))
    ensures RouteTargets(Steered(t, clock, xs, ys, i), clock(n)).Ok?
    ensures var wanted := Wanted(xs, ys, n, i);
            wanted.Some? && wanted.value in TargetSet(t) ==>
              wanted.value in RouteTargets(Steered(t, clock, xs, ys, i), clock(n)).value
  {
    hide Wanted, TimeOf;
    TimeIs(clock, n);
    var wanted := Wanted(xs, ys, n, i);
    match t
    case Fixed(_) =>
    case StaticFanOut(_) =>
    case Conditional(_, allowed) =>
      WantedIsAllowed(allowed, wanted);
    case ConditionalFanOut(_, allowed) =>
      WantedIsAllowed(allowed, wanted);
      OneSelected(allowed, Steer(allowed, wanted));
  }

  lemma WantedIsAllowed(allowed: Whitelist, wanted: Option<nat>)
    ensures wanted.Some? && wanted.value in WhitelistTargets(allowed) ==> CanLead(allowed, wanted)
  {
  }

  ghost function SteeredItem(item: CompiledItem, clock: nat -> State, u: Update, xs: seq<nat>, ys: seq<nat>, i: nat)
    : CompiledItem
    requires HasChoice(item.transition)
  {
    var t := Steered(item.transition, clock, xs, ys, i);
    if item.Node? then Node(item.path, item.graphPath, Normal((s: State, c: NodeContext) => Ok(u)), t)
    else WithTransition(item, t)
  }

  ghost predicate AllChoices(items: seq<CompiledItem>) {
    forall i :: 0 <= i < |items| ==> HasChoice(items[i].transition)
  }

  lemma ChoicesOf(g: CompiledGraph)
    requires WellFormed(g)
    ensures AllChoices(g.items)
  {
    forall i | 0 <= i < |g.items| ensures HasChoice(g.items[i].transition) { ItemOkOf(g, i); }
  }

  /** The same declaration, steered along the path; every node just produces. */
  ghost function SteeredGraph(g: CompiledGraph, clock: nat -> State, u: Update, xs: seq<nat>, ys: seq<nat>)
    : CompiledGraph
    requires AllChoices(g.items)
  {
    g.(items := seq(|g.items|, i requires 0 <= i < |g.items| => SteeredItem(g.items[i], clock, u, xs, ys, i)))
  }

  lemma SteeredIsSame(g: CompiledGraph, clock: nat -> State, u: Update, xs: seq<nat>, ys: seq<nat>)
    requires AllChoices(g.items) && Counts(clock)
    ensures SameShape(g, SteeredGraph(g, clock, u, xs, ys))
  {
    hide HasChoice, Steered, SameBut;
    var g' := SteeredGraph(g, clock, u, xs, ys);
    forall i | 0 <= i < |g.items| ensures SameItem(g.items[i], g'.items[i]) {
      SteeredRoutes(g.items[i].transition, clock, xs, ys, i, 0);
    }
  }

  /** A reducer that only counts. */
  ghost function Counting(clock: nat -> State): StateOps {
    StateOps((s: State, u: Update) => Ok(Tick(clock, s)), (s: State, batch: seq<NodeUpdate>) => Ok(Tick(clock, s)))
  }

  // ---- and the run they drive ----

  /** Item i has led where it had to. */
  ghost predicate LeadsOn(g: CompiledGraph, xs: seq<nat>, ys: seq<nat>, n: nat, i: nat, targets: seq<nat>) {
    var wanted := Wanted(xs, ys, n, i);
    i < |g.items| && (wanted.Some? && wanted.value in TargetSet(g.items[i].transition) ==> wanted.value in targets)
  }

  lemma {:induction false} SteeredRouting(g: CompiledGraph, clock: nat -> State, u: Update, xs: seq<nat>, ys: seq<nat>,
                                          frontier: seq<nat>, n: nat)
    requires AllChoices(g.items) && Counts(clock) && InGraph(g, frontier)
    ensures var g' := SteeredGraph(g, clock, u, xs, ys);
            && RouteAll(g', frontier, clock(n)).Ok?
            && forall i: nat :: i in frontier ==> LeadsOn(g, xs, ys, n, i, RouteAll(g', frontier, clock(n)).value)
  {
    hide HasChoice, Steered, TargetSet, RouteTargets, Wanted, Counts;
    if frontier != [] {
      var last := |frontier| - 1;
      SteeredRouting(g, clock, u, xs, ys, frontier[..last], n);
      SteeredRoutes(g.items[frontier[last]].transition, clock, xs, ys, frontier[last], n);
      assert frontier == frontier[..last] + [frontier[last]];
    }
  }

  /** Where the steered run stands: at step n of the path, at time n. */
  ghost predicate OnPath(g: CompiledGraph, clock: nat -> State, xs: seq<nat>, ys: seq<nat>, n: nat, p: Position) {
    && PairPath(g.items, xs, ys) && n < |xs| == |ys| && p.state == clock(n)
    && xs[n] in p.frontier && ys[n] in p.frontier && xs[n] != ys[n]
  }

  lemma OnPathIsParallel(g: CompiledGraph, clock: nat -> State, xs: seq<nat>, ys: seq<nat>, n: nat, p: Position)
    requires OnPath(g, clock, xs, ys, n, p)
    ensures |p.frontier| >= 2
    ensures RealNodes(g, p.frontier) ==> RealPair(g.items, xs[n], ys[n])
  {
  }

  lemma PathWants(items: seq<CompiledItem>, xs: seq<nat>, ys: seq<nat>, n: nat)
    requires PairPath(items, xs, ys) && n + 1 < |xs|
    ensures xs[n] != ys[n] && xs[n + 1] != ys[n + 1] && ActivatesEach(items, xs[n], ys[n], xs[n + 1], ys[n + 1])
    ensures Wanted(xs, ys, n + 1, xs[n]) == Some(xs[n + 1]) && Wanted(xs, ys, n + 1, ys[n]) == Some(ys[n + 1])
  {
    assert Linked(items, xs, ys, n);
    if n > 0 { assert Linked(items, xs, ys, n - 1); }
  }

  lemma SteeredCommits(g: CompiledGraph, clock: nat -> State, u: Update, xs: seq<nat>, ys: seq<nat>, n: nat,
                       p: Position, order: seq<nat>)
    requires AllChoices(g.items) && Counts(clock) && p.state == clock(n) && |p.frontier| >= 2
    requires RealNodes(SteeredGraph(g, clock, u, xs, ys), p.frontier) && IsCompletionOrder(order, |p.frontier|)
    ensures CommitFrontier(SteeredGraph(g, clock, u, xs, ys), Counting(clock), Disabled, p, None, order)
            == Committed(clock(n + 1))
  {
    hide Steered, HasChoice, TimeOf, IsCompletionOrder;
    var g' := SteeredGraph(g, clock, u, xs, ys);
    TimeIs(clock, n);
    OrderOffsets(order, |p.frontier|);
    NoParallelFault(g', Disabled, p, None, order);
    forall k | 0 <= k < |p.frontier| ensures NodeResult(g', p, None, k) == Ok(Produced(u)) {
      var i := p.frontier[k];
      assert g'.items[i] == SteeredItem(g.items[i], clock, u, xs, ys, i);
    }
  }

  lemma OrderOffsets(order: seq<nat>, width: nat)
    requires IsCompletionOrder(order, width)
    ensures Offsets(order, width) && forall k :: k in order ==> 0 <= k < width
  {
  }

  /** One super-step of the steered run follows the path by one step, or panics. */
  lemma SteeredStep(g: CompiledGraph, clock: nat -> State, u: Update, xs: seq<nat>, ys: seq<nat>, n: nat, p: Position,
                    order: seq<nat>)
    requires AllChoices(g.items) && Counts(clock) && OnPath(g, clock, xs, ys, n, p) && n + 1 < |xs|
    requires RealNodes(SteeredGraph(g, clock, u, xs, ys), p.frontier) && IsCompletionOrder(order, |p.frontier|)
    ensures p.frontier != []
    ensures var outcome := Superstep(SteeredGraph(g, clock, u, xs, ys), Counting(clock), Disabled, p, None, order);
            outcome.Panicking? || (outcome.Advanced? && OnPath(g, clock, xs, ys, n + 1, outcome.next))
  {
    hide SteeredGraph, IsCompletionOrder, CommitFrontier, RouteAll, Wanted, PairPath, RealNodes;
    var g' := SteeredGraph(g, clock, u, xs, ys);
    SteeredShape(g, clock, u, xs, ys, p.frontier);
    OnPathIsParallel(g, clock, xs, ys, n, p);
    PathEnds(g.items, xs, ys);
    PathWants(g.items, xs, ys, n);
    SteeredCommits(g, clock, u, xs, ys, n, p, order);
    SteeredRouting(g, clock, u, xs, ys, p.frontier, n + 1);
    var targets := RouteAll(g', p.frontier, clock(n + 1)).value;
    assert LeadsOn(g, xs, ys, n + 1, xs[n], targets) && LeadsOn(g, xs, ys, n + 1, ys[n], targets);
    SortDedupSorts(targets);
    var sorted := SortDedup(targets);
    assert xs[n + 1] in sorted && ys[n + 1] in sorted;
    TwoAreParallel(sorted, xs[n + 1], ys[n + 1]);
  }

  lemma SteeredShape(g: CompiledGraph, clock: nat -> State, u: Update, xs: seq<nat>, ys: seq<nat>, frontier: seq<nat>)
    requires AllChoices(g.items)
    ensures |SteeredGraph(g, clock, u, xs, ys).items| == |g.items|
    ensures RealNodes(SteeredGraph(g, clock, u, xs, ys), frontier) ==> InGraph(g, frontier)
    ensures InGraph(g, frontier) <==> InGraph(SteeredGraph(g, clock, u, xs, ys), frontier)
  {
  }

  lemma TwoAreParallel(frontier: seq<nat>, x: nat, y: nat)
    requires x in frontier && y in frontier && x != y
    ensures |frontier| >= 2
  {
  }

  /** Followed to its end, with budget enough, the path makes the run panic. */
  lemma {:induction false} SteeredRunPanics(g: CompiledGraph, clock: nat -> State, u: Update, xs: seq<nat>,
                                            ys: seq<nat>, n: nat, p: Position, schedule: Schedule)
    returns (limit: nat)
    requires AllChoices(g.items) && Counts(clock) && CompletesAll(schedule)
    requires OnPath(g, clock, xs, ys, n, p) && !RealPair(g.items, xs[|xs| - 1], ys[|ys| - 1])
    requires WellFormed(SteeredGraph(g, clock, u, xs, ys)) && FrontierOk(SteeredGraph(g, clock, u, xs, ys), p.frontier)
    ensures p.steps <= limit
    ensures Run(SteeredGraph(g, clock, u, xs, ys), Counting(clock), Disabled, p, None, limit, 0, schedule)
              .ending.Panicked?
    ensures forall more: nat :: more >= limit ==>
              Run(SteeredGraph(g, clock, u, xs, ys), Counting(clock), Disabled, p, None, more, 0, schedule)
                .ending.Panicked?
    decreases |xs| - n
  {
    hide WellFormed, SteeredGraph, CompletesAll, Superstep, PairPath, RealPair, Candidate;
    var g', ops := SteeredGraph(g, clock, u, xs, ys), Counting(clock);
    var order := OrderOf(schedule, p);
    NotYetThere(g, clock, u, xs, ys, n, p);
    SteeredStep(g, clock, u, xs, ys, n, p, order);
    SuperstepKeepsFrontier(g', ops, Disabled, p, None, order);
    StepCounts(g', ops, Disabled, p, None, order);
    limit := p.steps + |p.frontier|;
    var outcome := Superstep(g', ops, Disabled, p, None, order);
    if outcome.Advanced? {
      limit := SteeredRunPanics(g, clock, u, xs, ys, n + 1, outcome.next, schedule);
    }
  }

  lemma NotYetThere(g: CompiledGraph, clock: nat -> State, u: Update, xs: seq<nat>, ys: seq<nat>, n: nat, p: Position)
    requires AllChoices(g.items) && Counts(clock) && OnPath(g, clock, xs, ys, n, p)
    requires !RealPair(g.items, xs[|xs| - 1], ys[|ys| - 1])
    requires RealNodes(SteeredGraph(g, clock, u, xs, ys), p.frontier)
    ensures n + 1 < |xs|
  {
    PathEnds(g.items, xs, ys);
    hide PairPath;
    SteeredIsSame(g, clock, u, xs, ys);
    var g' := SteeredGraph(g, clock, u, xs, ys);
    forall k | 0 <= k < |p.frontier| ensures p.frontier[k] < |g.items| && g.items[p.frontier[k]].Node? {
      assert SameItem(g.items[p.frontier[k]], g'.items[p.frontier[k]]);
    }
    OnPathIsParallel(g, clock, xs, ys, n, p);
  }

  lemma HarmfulCanPanic(g: CompiledGraph, frontier: seq<nat>, clock: nat -> State, u: Update)
    requires WellFormed(g) && FrontierOk(g, frontier) && !Harmless(g, frontier) && Counts(clock)
    ensures !NeverPanics(g, frontier)
  {
    hide WellFormed, Harmless, Run, SameShape, PairPath, RealPair, SteeredGraph, Counts, Candidate, RealNodes;
    ChoicesOf(g);
    FrontierParts(g, frontier);
    var xs, ys := HarmfulPath(g, frontier);
    PathEnds(g.items, xs, ys);
    PathStarts(g, clock, xs, ys, frontier);
    var g' := SteeredGraph(g, clock, u, xs, ys);
    SteeredIsSame(g, clock, u, xs, ys);
    SameShapeIsWellFormed(g, g');
    SameShapeFrontier(g, g', frontier);
    var p := Position(clock(0), 0, 0, frontier);
    var schedule: Schedule := (superstep: nat, width: nat) => Identity(width);
    var limit := SteeredRunPanics(g, clock, u, xs, ys, 0, p, schedule);
    assert Run(g', Counting(clock), Disabled, p, None, limit, 0, schedule).ending.Panicked?;
    assert !RunsSafely(g', frontier);
  }

  lemma FrontierParts(g: CompiledGraph, frontier: seq<nat>)
    requires FrontierOk(g, frontier)
    ensures StrictlyAscending(frontier) && RealNodes(g, frontier)
  {
  }

  lemma PathStarts(g: CompiledGraph, clock: nat -> State, xs: seq<nat>, ys: seq<nat>, frontier: seq<nat>)
    requires PairPath(g.items, xs, ys) && xs[0] in frontier && ys[0] in frontier
    ensures OnPath(g, clock, xs, ys, 0, Position(clock(0), 0, 0, frontier))
  {
  }

  lemma SameShapeFrontier(g: CompiledGraph, g': CompiledGraph, frontier: seq<nat>)
    requires SameShape(g, g') && FrontierOk(g, frontier)
    ensures FrontierOk(g', frontier)
  {
    forall k | 0 <= k < |frontier|
      ensures frontier[k] < |g'.items| && g'.items[frontier[k]].Node?
      ensures g'.items[frontier[k]].graphPath == g.items[frontier[k]].graphPath
    {
      assert SameItem(g.items[frontier[k]], g'.items[frontier[k]]);
    }
    FrontierSharesNamespace(g, frontier);
  }

  // ---- the exact condition ----

  /** Validation accepts frontiers the compile-time check never covered. Such a
      frontier can be continued without panicking, whatever the routers and nodes
      compute, exactly when the co-active closure of its pairs holds real nodes
      only. */
  lemma AcceptedIsSafeExactlyWhenHarmless(g: CompiledGraph, record: CheckpointRecord, frontier: seq<nat>,
                                          clock: nat -> State, u: Update)
    requires WellFormed(g) && Accepts(g, record, frontier) && Counts(clock)
    ensures NeverPanics(g, frontier) <==> Harmless(g, frontier)
  {
    hide WellFormed, Accepts, NeverPanics, Harmless, Counts;
    AcceptedIsFrontier(g, record, frontier);
    if Harmless(g, frontier) {
      HarmlessIsSafe(g, frontier);
    } else {
      HarmfulCanPanic(g, frontier, clock, u);
    }
  }
}
