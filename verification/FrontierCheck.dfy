/** The pair worklist that keeps subgraph mounts out of parallel frontiers
    (crates/group-agent-core/src/graph.rs:689-815), against the least relation
    it has to compute. */
module FrontierCheck {
  import opened Base
  import opened Paths
  import opened Transitions
  import opened Declared
  import opened Validation

  // ---- the reference relation ----

  ghost predicate Activates(d: Declaration, from: NodeId, to: NodeId) {
    to != END && Leads(d, from, to)
  }

  ghost predicate FansOut<R>(edges: seq<Routed<R>>, x: NodeId, y: NodeId) {
    exists e :: e in edges && x in e.targets && y in e.targets
  }

  /** x and y may be in one frontier within `depth` super-steps: one fan-out
      names both, or two items that may be in one frontier lead to them. */
  ghost predicate CoActiveIds(d: Declaration, depth: nat, x: NodeId, y: NodeId)
    decreases depth
  {
    depth > 0 && x != y && x != END && y != END &&
    (|| FansOut(d.fanOutEdges, x, y)
     || FansOut(d.conditionalFanOutEdges, x, y)
     || exists l, r :: CoActiveIds(d, depth - 1, l, r) && Activates(d, l, x) && Activates(d, r, y))
  }

  ghost predicate MayRunTogether(d: Declaration, x: NodeId, y: NodeId) {
    exists depth: nat :: CoActiveIds(d, depth, x, y)
  }

  lemma {:induction false} CoActiveIdsIsSymmetric(d: Declaration, depth: nat, x: NodeId, y: NodeId)
    requires CoActiveIds(d, depth, x, y)
    ensures CoActiveIds(d, depth, y, x)
    decreases depth
  {
    if !FansOut(d.fanOutEdges, x, y) && !FansOut(d.conditionalFanOutEdges, x, y) {
      var l, r :| CoActiveIds(d, depth - 1, l, r) && Activates(d, l, x) && Activates(d, r, y);
      CoActiveIdsIsSymmetric(d, depth - 1, l, r);
    } else {
      assert FansOut(d.fanOutEdges, x, y) ==> FansOut(d.fanOutEdges, y, x);
      assert FansOut(d.conditionalFanOutEdges, x, y) ==> FansOut(d.conditionalFanOutEdges, y, x);
    }
  }

  lemma FanOutRunsTogether(d: Declaration, x: NodeId, y: NodeId)
    requires x != y && x != END && y != END
    requires FansOut(d.fanOutEdges, x, y) || FansOut(d.conditionalFanOutEdges, x, y)
    ensures MayRunTogether(d, x, y)
  {
    assert CoActiveIds(d, 1, x, y);
  }

  lemma SuccessorsRunTogether(d: Declaration, l: NodeId, r: NodeId, x: NodeId, y: NodeId)
    requires MayRunTogether(d, l, r) && Activates(d, l, x) && Activates(d, r, y) && x != y
    ensures MayRunTogether(d, x, y) && MayRunTogether(d, y, x)
  {
    var depth: nat :| CoActiveIds(d, depth, l, r);
    assert CoActiveIds(d, depth + 1, x, y);
    CoActiveIdsIsSymmetric(d, depth + 1, x, y);
  }

  // ---- canonical pairs ----

  type Pair = (NodeId, NodeId)

  function Canonical(l: NodeId, r: NodeId): Pair {
    if TextLe(l, r) then (l, r) else (r, l)
  }

  lemma CanonicalIsUnordered(l: NodeId, r: NodeId)
    ensures Canonical(l, r) == Canonical(r, l)
  {
    TextLeIsTotal(l, r);
  }

  // ---- transition_alternatives ----

  ghost function Members(frontier: seq<NodeId>): set<NodeId> { set x | x in frontier && x != END }

  /** A set of identifiers any two of which may run together. */
  ghost predicate Together(d: Declaration, members: set<NodeId>) {
    forall x, y :: x in members && y in members && x != y ==> MayRunTogether(d, x, y)
  }

  function Executable(target: NodeId): seq<NodeId> { if target == END then [] else [target] }

  function WithoutEnd(targets: seq<NodeId>): (r: seq<NodeId>)
    ensures forall t :: t in r <==> t in targets && t != END
  {
    if targets == [] then [] else Executable(targets[0]) + WithoutEnd(targets[1..])
  }

  /** The target sets one transition may activate, END dropped: one per route of
      a single-target router, one whole set for everything else. */
  function TransitionAlternatives(agg: EdgeAggregation, source: NodeId): seq<seq<NodeId>> {
    if source == END then [[]]
    else if source in agg.fixedBySource then [Executable(agg.fixedBySource[source].successor)]
    else if source in agg.fanOutBySource then [WithoutEnd(agg.fanOutBySource[source].targets)]
    else if source in agg.conditionalFanOutBySource then [WithoutEnd(agg.conditionalFanOutBySource[source].targets)]
    else if source in agg.conditionalBySource then
      var targets := agg.conditionalBySource[source].targets;
      seq(|targets|, i requires 0 <= i < |targets| => Executable(targets[i]))
    else [[]]
  }

  lemma {:induction false} FixedEdgesCount(edges: seq<FixedEdge>, from: NodeId, to: NodeId)
    ensures FixedEdge(from, to) in edges ==> CountFrom(edges, from) > 0
    ensures CountFrom(edges, from) > 0 ==> FixedEdge(from, FirstTo(edges, from)) in edges
    ensures CountFrom(edges, from) == 1 && FixedEdge(from, to) in edges ==> to == FirstTo(edges, from)
  {
    if edges != [] {
      var shorter, last := edges[..|edges| - 1], edges[|edges| - 1];
      assert edges == shorter + [last];
      FixedEdgesCount(shorter, from, to);
    }
  }

  lemma RoutedLeadsIsStored<R>(edges: seq<Routed<R>>, m: map<NodeId, Routed<R>>, from: NodeId, to: NodeId)
    requires DistinctSources(edges) && RoutedAggregated(edges, m)
    ensures RoutedLeads(edges, from, to) <==> from in m && to in m[from].targets
    ensures from in m <==> HasRouted(edges, from)
  {
    if from in m {
      assert m[from] in edges;
      forall e | e in edges && e.source == from ensures e == m[from] {
        var i :| 0 <= i < |edges| && edges[i] == e;
        var j :| 0 <= j < |edges| && edges[j] == m[from];
      }
    }
    if HasRouted(edges, from) {
      var i :| 0 <= i < |edges| && edges[i].source == from;
      assert edges[i] in edges;
    }
  }

  /** The stored edges say exactly which targets an item of a well-shaped graph
      leads to, one kind of edge at a time. */
  lemma LeadsIsStored(d: Declaration, agg: EdgeAggregation, from: NodeId, to: NodeId)
    requires ValidDeclaration(d) && Aggregates(d, agg)
    requires ShapeFault(d).None? && HasItem(d.items, from)
    ensures Leads(d, from, to) <==>
            || (from in agg.fixedBySource && to == agg.fixedBySource[from].successor)
            || (from in agg.fanOutBySource && to in agg.fanOutBySource[from].targets)
            || (from in agg.conditionalBySource && to in agg.conditionalBySource[from].targets)
            || (from in agg.conditionalFanOutBySource && to in agg.conditionalFanOutBySource[from].targets)
    ensures One(from in agg.fixedBySource) + One(from in agg.fanOutBySource) + One(from in agg.conditionalBySource)
            + One(from in agg.conditionalFanOutBySource) <= 1
  {
    NoFirstFault(ItemShapeFaults(d));
    var k :| 0 <= k < |d.items| && d.items[k].id == from;
    assert ItemShapeFaults(d)[k].None?;
    AggregationCounts(d, agg, from);
    FixedEdgesCount(d.fixedEdges, from, to);
    if from in agg.fixedBySource { FixedEdgesCount(d.fixedEdges, from, agg.fixedBySource[from].successor); }
    RoutedLeadsIsStored(d.fanOutEdges, agg.fanOutBySource, from, to);
    RoutedLeadsIsStored(d.conditionalEdges, agg.conditionalBySource, from, to);
    RoutedLeadsIsStored(d.conditionalFanOutEdges, agg.conditionalFanOutBySource, from, to);
  }

  lemma AlternativesAreActivations(d: Declaration, agg: EdgeAggregation, source: NodeId)
    requires ValidDeclaration(d) && Aggregates(d, agg)
    requires ShapeFault(d).None? && HasItem(d.items, source)
    ensures var alternatives := TransitionAlternatives(agg, source);
            && (forall k, t | 0 <= k < |alternatives| && t in alternatives[k] :: Activates(d, source, t))
            && (forall t | Activates(d, source, t) :: exists k :: 0 <= k < |alternatives| && t in alternatives[k])
            && (forall k | 0 <= k < |alternatives| :: Together(d, Members(alternatives[k])))
  {
    hide MayRunTogether, Leads, TransitionAlternatives;
    var alternatives := TransitionAlternatives(agg, source);
    forall t ensures (exists k :: 0 <= k < |alternatives| && t in alternatives[k]) <==> Activates(d, source, t) {
      AlternativesHold(d, agg, source, t);
    }
    forall k | 0 <= k < |alternatives| ensures Together(d, Members(alternatives[k])) {
      AlternativeIsTogether(d, agg, source, k);
    }
  }

  lemma AlternativesHold(d: Declaration, agg: EdgeAggregation, source: NodeId, t: NodeId)
    requires ValidDeclaration(d) && Aggregates(d, agg)
    requires ShapeFault(d).None? && HasItem(d.items, source)
    ensures var alternatives := TransitionAlternatives(agg, source);
            (exists k :: 0 <= k < |alternatives| && t in alternatives[k]) <==> Activates(d, source, t)
  {
    LeadsIsStored(d, agg, source, t);
    hide Leads, Aggregates, ShapeFault;
    var alternatives := TransitionAlternatives(agg, source);
    if Activates(d, source, t) {
      if source in agg.conditionalBySource {
        var targets := agg.conditionalBySource[source].targets;
        var k :| 0 <= k < |targets| && targets[k] == t;
        assert t in alternatives[k];
      } else {
        assert t in alternatives[0];
      }
    }
  }

  lemma AlternativeIsTogether(d: Declaration, agg: EdgeAggregation, source: NodeId, k: nat)
    requires Aggregates(d, agg) && k < |TransitionAlternatives(agg, source)|
    ensures Together(d, Members(TransitionAlternatives(agg, source)[k]))
  {
    hide MayRunTogether, Leads;
    var members := Members(TransitionAlternatives(agg, source)[k]);
    forall x, y | x in members && y in members && x != y ensures MayRunTogether(d, x, y) {
      if source in agg.fanOutBySource {
        assert agg.fanOutBySource[source] in d.fanOutEdges;
        FanOutRunsTogether(d, x, y);
      } else if source in agg.conditionalFanOutBySource {
        assert agg.conditionalFanOutBySource[source] in d.conditionalFanOutEdges;
        FanOutRunsTogether(d, x, y);
      }
    }
  }

  // ---- the worklist ----

  /** What one enqueue does: it adds the canonical pairs of the frontier and
      nothing else, queueing exactly the new ones. */
  ghost predicate Enqueued(members: set<NodeId>, queued: set<Pair>, work: seq<Pair>,
                           queued': set<Pair>, work': seq<Pair>)
  {
    && (forall p :: p in queued' <==>
          p in queued || exists x, y :: x in members && y in members && x != y && p == Canonical(x, y))
    && (forall p :: p in work' <==> p in work || (p in queued' && p !in queued))
    && (queued' == queued ==> work' == work)
  }

  method EnqueueRow(items: seq<Declared>, left: NodeId, rights: seq<NodeId>, queued: set<Pair>, work: seq<Pair>)
    returns (queued': set<Pair>, work': seq<Pair>, fault: Option<NodeId>)
    requires left !in rights
    ensures fault.Some? ==>
              && IsMount(items, fault.value) && (fault.value == left || fault.value in rights)
              && exists other :: (other == left || other in rights) && other != fault.value
    ensures fault.None? ==>
              && (rights != [] ==> !IsMount(items, left)) && (forall r :: r in rights ==> !IsMount(items, r))
              && (forall p :: p in queued' <==> p in queued || exists r :: r in rights && p == Canonical(left, r))
              && (forall p :: p in work' <==> p in work || (p in queued' && p !in queued))
              && (queued' == queued ==> work' == work)
  {
    queued', work', fault := queued, work, None;
    for i := 0 to |rights|
      invariant fault.None?
      invariant i > 0 ==> !IsMount(items, left)
      invariant forall r :: r in rights[..i] ==> !IsMount(items, r)
      invariant forall p :: p in queued' <==> p in queued || exists r :: r in rights[..i] && p == Canonical(left, r)
      invariant forall p :: p in work' <==> p in work || (p in queued' && p !in queued)
      invariant queued' == queued ==> work' == work
    {
      var right := rights[i];
      assert rights[..i + 1] == rights[..i] + [right];
      assert left != right && right in rights;
      if IsMount(items, left) { fault := Some(left); return; }
      if IsMount(items, right) { fault := Some(right); return; }
      var pair := Canonical(left, right);
      if pair !in queued' {
        queued' := queued' + {pair};
        work' := work' + [pair];
      }
    }
    assert rights[..|rights|] == rights;
  }

  /** Drops END and repeats, keeping the first occurrence. */
  method DistinctMembers(frontier: seq<NodeId>) returns (members: seq<NodeId>)
    ensures forall x :: x in members <==> x in frontier && x != END
    ensures forall i, j :: 0 <= i < j < |members| ==> members[i] != members[j]
  {
    members := [];
    for i := 0 to |frontier|
      invariant forall x :: x in members <==> x in frontier[..i] && x != END
      invariant forall j, k :: 0 <= j < k < |members| ==> members[j] != members[k]
    {
      assert frontier[..i + 1] == frontier[..i] + [frontier[i]];
      if frontier[i] != END && frontier[i] !in members { members := members + [frontier[i]]; }
    }
    assert frontier[..|frontier|] == frontier;
  }

  /** p pairs one of the first i members with a later one. */
  ghost predicate PairedBefore(members: seq<NodeId>, i: nat, p: Pair) {
    exists j, k :: 0 <= j < i && j < k < |members| && p == Canonical(members[j], members[k])
  }

  ghost predicate PairedWith(left: NodeId, rights: seq<NodeId>, p: Pair) {
    exists r :: r in rights && p == Canonical(left, r)
  }

  /** None of the first i members is a mount, nor is anything beside them. */
  ghost predicate AloneBefore(items: seq<Declared>, members: seq<NodeId>, i: nat) {
    forall j, k :: 0 <= j < i && j < k < |members| ==> !IsMount(items, members[j]) && !IsMount(items, members[k])
  }

  lemma OneMoreRow(items: seq<Declared>, members: seq<NodeId>, i: nat)
    requires i < |members| && DistinctIds(members)
    ensures members[i] !in members[i + 1..] && members[i] in members
    ensures forall r :: r in members[i + 1..] ==> r in members
    ensures forall p :: PairedBefore(members, i + 1, p) <==>
                        PairedBefore(members, i, p) || PairedWith(members[i], members[i + 1..], p)
    ensures AloneBefore(items, members, i) && (members[i + 1..] != [] ==> !IsMount(items, members[i]))
            && (forall r :: r in members[i + 1..] ==> !IsMount(items, r))
            ==> AloneBefore(items, members, i + 1)
  {
    var rights := members[i + 1..];
    assert forall k :: i < k < |members| ==> members[k] == rights[k - i - 1];
    forall p ensures PairedBefore(members, i + 1, p) <==>
                     PairedBefore(members, i, p) || PairedWith(members[i], rights, p)
    {
      if PairedWith(members[i], rights, p) {
        var r :| r in rights && p == Canonical(members[i], r);
        var k :| 0 <= k < |rights| && rights[k] == r;
        assert p == Canonical(members[i], members[k + i + 1]);
      }
    }
  }

  lemma NoRowsYet(items: seq<Declared>, members: seq<NodeId>)
    ensures AloneBefore(items, members, 0) && forall p :: !PairedBefore(members, 0, p)
  {
  }

  ghost predicate QueuedBefore(members: seq<NodeId>, i: nat, queued: set<Pair>, queued': set<Pair>) {
    forall p :: p in queued' <==> p in queued || PairedBefore(members, i, p)
  }

  method EnqueueFrontier(items: seq<Declared>, frontier: seq<NodeId>, queued: set<Pair>, work: seq<Pair>)
    returns (queued': set<Pair>, work': seq<Pair>, fault: Option<NodeId>)
    ensures fault.Some? ==>
              && IsMount(items, fault.value) && fault.value in Members(frontier)
              && exists other :: other in Members(frontier) && other != fault.value
    ensures fault.None? ==>
              && Enqueued(Members(frontier), queued, work, queued', work')
              && forall x, y :: x in Members(frontier) && y in Members(frontier) && x != y ==> !IsMount(items, x)
  {
    hide PairedBefore, AloneBefore, QueuedBefore, IsMount;
    var members := DistinctMembers(frontier);
    assert DistinctIds(members);
    assert forall x :: x in Members(frontier) <==> x in members;
    queued', work', fault := queued, work, None;
    NoRowsYet(items, members);
    QueueStart(members, queued);
    for i := 0 to |members|
      invariant fault.None? && AloneBefore(items, members, i) && QueuedBefore(members, i, queued, queued')
      invariant queued <= queued'
      invariant forall p :: p in work' <==> p in work || (p in queued' && p !in queued)
      invariant queued' == queued ==> work' == work
    {
      ghost var before := queued';
      var left, rights := members[i], members[i + 1..];
      OneMoreRow(items, members, i);
      queued', work', fault := EnqueueRow(items, left, rights, queued', work');
      if fault.Some? {
        var other :| (other == left || other in rights) && other != fault.value;
        assert fault.value in members && other in members;
        return;
      }
      QueueStep(members, i, queued, before, queued');
    }
    EnqueuedAll(items, members, Members(frontier), queued, queued');
  }

  lemma QueueStart(members: seq<NodeId>, queued: set<Pair>)
    ensures QueuedBefore(members, 0, queued, queued)
  {
  }

  lemma QueueStep(members: seq<NodeId>, i: nat, queued: set<Pair>, before: set<Pair>, after: set<Pair>)
    requires i < |members| && QueuedBefore(members, i, queued, before)
    requires forall p :: PairedBefore(members, i + 1, p) <==>
                         PairedBefore(members, i, p) || PairedWith(members[i], members[i + 1..], p)
    requires forall p :: p in after <==>
               p in before || exists r :: r in members[i + 1..] && p == Canonical(members[i], r)
    ensures QueuedBefore(members, i + 1, queued, after) && before <= after
  {
    hide PairedBefore;
    forall p ensures p in after <==> p in queued || PairedBefore(members, i + 1, p) {
      assert p in after <==> p in before || PairedWith(members[i], members[i + 1..], p);
    }
  }

  lemma EnqueuedAll(items: seq<Declared>, members: seq<NodeId>, all: set<NodeId>, queued: set<Pair>, queued': set<Pair>)
    requires forall x :: x in all <==> x in members
    requires DistinctIds(members) && QueuedBefore(members, |members|, queued, queued')
    requires AloneBefore(items, members, |members|)
    ensures forall p :: p in queued' <==>
              p in queued || exists x, y :: x in all && y in all && x != y && p == Canonical(x, y)
    ensures forall x, y :: x in all && y in all && x != y ==> !IsMount(items, x)
  {
    forall x, y | x in all && y in all && x != y ensures Canonical(x, y) in queued' && !IsMount(items, x) {
      var j :| 0 <= j < |members| && members[j] == x;
      var k :| 0 <= k < |members| && members[k] == y;
      CanonicalIsUnordered(x, y);
      if j < k { assert PairedBefore(members, |members|, Canonical(members[j], members[k])); }
      else { assert PairedBefore(members, |members|, Canonical(members[k], members[j])); }
    }
    forall p | p in queued' && p !in queued
      ensures exists x, y :: x in all && y in all && x != y && p == Canonical(x, y)
    {
      assert PairedBefore(members, |members|, p);
      var j, k :| 0 <= j < |members| && j < k < |members| && p == Canonical(members[j], members[k]);
      assert members[j] in all && members[k] in all && members[j] != members[k];
    }
  }

  ghost function Ids(d: Declaration): set<NodeId> { set k | 0 <= k < |d.items| :: d.items[k].id }

  ghost function AllPairs(d: Declaration): set<Pair> {
    set x, y | x in Ids(d) && y in Ids(d) :: (x, y)
  }

  /** Every queued pair may really run together and holds no mount. */
  ghost predicate SoundPairs(d: Declaration, queued: set<Pair>) {
    forall p :: p in queued ==>
      && p in AllPairs(d) && MayRunTogether(d, p.0, p.1)
      && !IsMount(d.items, p.0) && !IsMount(d.items, p.1)
  }

  /** Everything the pair (l, r) can lead to has been queued. */
  ghost predicate Covered(d: Declaration, queued: set<Pair>, l: NodeId, r: NodeId) {
    forall x, y :: Activates(d, l, x) && Activates(d, r, y) && x != y ==> Canonical(x, y) in queued
  }

  lemma EnqueueKeepsSound(d: Declaration, members: set<NodeId>, queued: set<Pair>, work: seq<Pair>,
                          queued': set<Pair>, work': seq<Pair>)
    requires SoundPairs(d, queued) && Enqueued(members, queued, work, queued', work')
    requires Together(d, members) && members <= Ids(d)
    requires forall x, y :: x in members && y in members && x != y ==> !IsMount(d.items, x)
    ensures SoundPairs(d, queued')
  {
    forall p | p in queued' && p !in queued
      ensures p in AllPairs(d) && MayRunTogether(d, p.0, p.1) && !IsMount(d.items, p.0) && !IsMount(d.items, p.1)
    {
      var x, y :| x in members && y in members && x != y && p == Canonical(x, y);
    }
  }

  lemma KnownMembers(d: Declaration, agg: EdgeAggregation, source: NodeId, k: nat)
    requires ValidDeclaration(d) && Aggregates(d, agg) && EdgeFault(d).None? && ShapeFault(d).None?
    requires HasItem(d.items, source) && k < |TransitionAlternatives(agg, source)|
    ensures Members(TransitionAlternatives(agg, source)[k]) <= Ids(d)
  {
    AlternativesAreActivations(d, agg, source);
    forall x | x in Members(TransitionAlternatives(agg, source)[k]) ensures x in Ids(d) {
      assert Activates(d, source, x);
      LeadsIsKnown(d, source, x);
      var i :| 0 <= i < |d.items| && d.items[i].id == x;
      assert d.items[i].id in Ids(d);
    }
  }

  lemma IdsAreItems(d: Declaration, id: NodeId)
    ensures id in Ids(d) <==> HasItem(d.items, id)
  {
    if HasItem(d.items, id) {
      var k :| 0 <= k < |d.items| && d.items[k].id == id;
      assert d.items[k].id in Ids(d);
    }
  }

  /** The queue grew, and exactly the new pairs are pending. */
  ghost predicate Grew(queued: set<Pair>, work: seq<Pair>, queued': set<Pair>, work': seq<Pair>) {
    && queued <= queued'
    && (forall p :: p in work' <==> p in work || (p in queued' && p !in queued))
    && (queued' == queued ==> work' == work)
  }

  ghost predicate CrossQueued(queued: set<Pair>, lefts: seq<NodeId>, rights: seq<NodeId>) {
    forall x, y :: x in lefts && y in rights && x != y ==> Canonical(x, y) in queued
  }

  ghost predicate MisplacedMount(d: Declaration, fault: NodeId) {
    IsMount(d.items, fault) && exists other :: MayRunTogether(d, fault, other)
  }

  lemma JoinQueued(left: seq<NodeId>, right: seq<NodeId>, queued: set<Pair>, work: seq<Pair>,
                   queued': set<Pair>, work': seq<Pair>)
    requires END !in left && END !in right
    requires Enqueued(Members(left + right), queued, work, queued', work')
    ensures CrossQueued(queued', left, right)
    ensures Grew(queued, work, queued', work')
    ensures forall a, b :: CrossQueued(queued, a, b) ==> CrossQueued(queued', a, b)
  {
    forall x, y | x in left && y in right && x != y ensures Canonical(x, y) in queued' {
      assert x in Members(left + right) && y in Members(left + right);
    }
  }

  lemma AlternativesDropEnd(agg: EdgeAggregation, source: NodeId, k: nat)
    requires k < |TransitionAlternatives(agg, source)|
    ensures END !in TransitionAlternatives(agg, source)[k]
  {
  }

  lemma NothingGrew(queued: set<Pair>, work: seq<Pair>)
    ensures Grew(queued, work, queued, work)
  {
  }

  lemma GrewTwice(q0: set<Pair>, w0: seq<Pair>, q1: set<Pair>, w1: seq<Pair>, q2: set<Pair>, w2: seq<Pair>)
    requires Grew(q0, w0, q1, w1) && Grew(q1, w1, q2, w2)
    ensures Grew(q0, w0, q2, w2)
  {
  }

  /** Enqueues one alternative of l joined with every alternative of r. */
  method ProcessRow(d: Declaration, agg: EdgeAggregation, l: NodeId, r: NodeId, i: nat,
                    queued: set<Pair>, work: seq<Pair>)
    returns (queued': set<Pair>, work': seq<Pair>, fault: Option<NodeId>)
    requires ValidDeclaration(d) && Aggregates(d, agg) && EdgeFault(d).None? && ShapeFault(d).None?
    requires HasItem(d.items, l) && HasItem(d.items, r) && MayRunTogether(d, l, r)
    requires i < |TransitionAlternatives(agg, l)| && SoundPairs(d, queued)
    ensures fault.Some? ==> MisplacedMount(d, fault.value)
    ensures fault.None? ==>
              && SoundPairs(d, queued') && Grew(queued, work, queued', work')
              && forall b | 0 <= b < |TransitionAlternatives(agg, r)| ::
                   CrossQueued(queued', TransitionAlternatives(agg, l)[i], TransitionAlternatives(agg, r)[b])
  {
    hide ValidDeclaration, Aggregates, EdgeFault, ShapeFault, TransitionAlternatives, SoundPairs, CrossQueued, Grew;
    var left, rights := TransitionAlternatives(agg, l)[i], TransitionAlternatives(agg, r);
    AlternativesDropEnd(agg, l, i);
    NothingGrew(queued, work);
    queued', work', fault := queued, work, None;
    for j := 0 to |rights|
      invariant fault.None? && SoundPairs(d, queued') && Grew(queued, work, queued', work')
      invariant forall b | 0 <= b < j :: CrossQueued(queued', left, rights[b])
    {
      ghost var queued0, work0 := queued', work';
      var frontier := left + rights[j];
      JointFrontier(d, agg, l, r, i, j);
      AlternativesDropEnd(agg, r, j);
      queued', work', fault := EnqueueFrontier(d.items, frontier, queued', work');
      if fault.Some? { return; }
      EnqueueKeepsSound(d, Members(frontier), queued0, work0, queued', work');
      JoinQueued(left, rights[j], queued0, work0, queued', work');
      GrewTwice(queued, work, queued0, work0, queued', work');
    }
  }

  /** Enqueues the frontier of every pair of alternatives of two items. */
  method ProcessPair(d: Declaration, agg: EdgeAggregation, l: NodeId, r: NodeId, queued: set<Pair>, work: seq<Pair>)
    returns (queued': set<Pair>, work': seq<Pair>, fault: Option<NodeId>)
    requires ValidDeclaration(d) && Aggregates(d, agg) && EdgeFault(d).None? && ShapeFault(d).None?
    requires SoundPairs(d, queued) && (l, r) in queued
    ensures fault.Some? ==> MisplacedMount(d, fault.value)
    ensures fault.None? ==>
              SoundPairs(d, queued') && Grew(queued, work, queued', work') && Covered(d, queued', l, r)
  {
    hide ValidDeclaration, Aggregates, EdgeFault, ShapeFault;
    IdsAreItems(d, l);
    IdsAreItems(d, r);
    var lefts := TransitionAlternatives(agg, l);
    ghost var rights := TransitionAlternatives(agg, r);
    queued', work', fault := queued, work, None;
    for i := 0 to |lefts|
      invariant fault.None? && SoundPairs(d, queued') && Grew(queued, work, queued', work')
      invariant forall a, b | 0 <= a < i && 0 <= b < |rights| :: CrossQueued(queued', lefts[a], rights[b])
    {
      queued', work', fault := ProcessRow(d, agg, l, r, i, queued', work');
      if fault.Some? { return; }
    }
    AlternativesAreActivations(d, agg, l);
    AlternativesAreActivations(d, agg, r);
    forall x, y | Activates(d, l, x) && Activates(d, r, y) && x != y ensures Canonical(x, y) in queued' {
      var a :| 0 <= a < |lefts| && x in lefts[a];
      var b :| 0 <= b < |rights| && y in rights[b];
      assert CrossQueued(queued', lefts[a], rights[b]);
    }
  }

  lemma AlternativeRunsTogether(d: Declaration, agg: EdgeAggregation, source: NodeId, i: nat)
    requires ValidDeclaration(d) && Aggregates(d, agg) && ShapeFault(d).None? && HasItem(d.items, source)
    requires i < |TransitionAlternatives(agg, source)|
    ensures Together(d, Members(TransitionAlternatives(agg, source)[i]))
    ensures forall t :: t in TransitionAlternatives(agg, source)[i] ==> Activates(d, source, t)
  {
    AlternativesAreActivations(d, agg, source);
  }

  /** The members of one joint frontier are declared and may run together. */
  lemma JointFrontier(d: Declaration, agg: EdgeAggregation, l: NodeId, r: NodeId, i: nat, j: nat)
    requires ValidDeclaration(d) && Aggregates(d, agg) && EdgeFault(d).None? && ShapeFault(d).None?
    requires HasItem(d.items, l) && HasItem(d.items, r) && MayRunTogether(d, l, r)
    requires i < |TransitionAlternatives(agg, l)| && j < |TransitionAlternatives(agg, r)|
    ensures var members := Members(TransitionAlternatives(agg, l)[i] + TransitionAlternatives(agg, r)[j]);
            members <= Ids(d) && Together(d, members)
  {
    hide TransitionAlternatives, MayRunTogether, Activates, EdgeFault, ShapeFault, Aggregates, ValidDeclaration;
    var left, right := TransitionAlternatives(agg, l)[i], TransitionAlternatives(agg, r)[j];
    KnownMembers(d, agg, l, i);
    KnownMembers(d, agg, r, j);
    assert Members(left + right) == Members(left) + Members(right);
    AlternativeRunsTogether(d, agg, l, i);
    AlternativeRunsTogether(d, agg, r, j);
    forall x, y | x in Members(left + right) && y in Members(left + right) && x != y ensures MayRunTogether(d, x, y) {
      if x in left && y in right {
        SuccessorsRunTogether(d, l, r, x, y);
      } else if x in right && y in left {
        SuccessorsRunTogether(d, l, r, y, x);
      }
    }
  }

  ghost predicate FanOutQueued<R>(edges: seq<Routed<R>>, queued: set<Pair>) {
    forall x, y :: FansOut(edges, x, y) && x != y && x != END && y != END ==> Canonical(x, y) in queued
  }

  method Seed<R>(d: Declaration, kind: RoutedKind, edges: seq<Routed<R>>, queued: set<Pair>, work: seq<Pair>)
    returns (queued': set<Pair>, work': seq<Pair>, fault: Option<NodeId>)
    requires FirstFault(RoutedFaults(d, kind, edges)).None?
    requires forall x, y :: FansOut(edges, x, y) ==>
               FansOut(d.fanOutEdges, x, y) || FansOut(d.conditionalFanOutEdges, x, y)
    requires SoundPairs(d, queued)
    ensures fault.Some? ==> MisplacedMount(d, fault.value)
    ensures fault.None? ==>
              SoundPairs(d, queued') && Grew(queued, work, queued', work') && FanOutQueued(edges, queued')
  {
    queued', work', fault := queued, work, None;
    for i := 0 to |edges|
      invariant fault.None? && SoundPairs(d, queued') && Grew(queued, work, queued', work')
      invariant FanOutQueued(edges[..i], queued')
    {
      ghost var queued0, work0 := queued', work';
      assert edges[..i + 1] == edges[..i] + [edges[i]];
      ghost var members := Members(edges[i].targets);
      forall x | x in members ensures x in Ids(d) {
        assert RoutedLeads(edges, edges[i].source, x);
        RoutedLeadsIsKnown(d, kind, edges, edges[i].source, x);
        IdsAreItems(d, x);
      }
      forall x, y | x in members && y in members && x != y ensures MayRunTogether(d, x, y) {
        assert FansOut(edges, x, y);
        FanOutRunsTogether(d, x, y);
      }
      queued', work', fault := EnqueueFrontier(d.items, edges[i].targets, queued', work');
      if fault.Some? { return; }
      EnqueueKeepsSound(d, members, queued0, work0, queued', work');
    }
    assert edges[..|edges|] == edges;
  }

  ghost predicate AllCovered(d: Declaration, queued: set<Pair>, work: seq<Pair>) {
    forall p :: p in queued ==> p in work || Covered(d, queued, p.0, p.1)
  }

  lemma {:induction false} ClosedPairsCover(d: Declaration, queued: set<Pair>, depth: nat, x: NodeId, y: NodeId)
    requires AllCovered(d, queued, [])
    requires FanOutQueued(d.fanOutEdges, queued) && FanOutQueued(d.conditionalFanOutEdges, queued)
    requires CoActiveIds(d, depth, x, y)
    ensures Canonical(x, y) in queued
    decreases depth
  {
    if !FansOut(d.fanOutEdges, x, y) && !FansOut(d.conditionalFanOutEdges, x, y) {
      var l, r :| CoActiveIds(d, depth - 1, l, r) && Activates(d, l, x) && Activates(d, r, y);
      ClosedPairsCover(d, queued, depth - 1, l, r);
      CanonicalIsUnordered(x, y);
      var p := Canonical(l, r);
      assert Covered(d, queued, p.0, p.1);
    }
  }

  lemma {:induction false} NoFanOutNoPairs(d: Declaration, depth: nat, x: NodeId, y: NodeId)
    requires d.fanOutEdges == [] && d.conditionalFanOutEdges == []
    ensures !CoActiveIds(d, depth, x, y)
    decreases depth
  {
    if depth > 0 {
      if l, r :| CoActiveIds(d, depth - 1, l, r) && Activates(d, l, x) && Activates(d, r, y) {
        NoFanOutNoPairs(d, depth - 1, l, r);
      }
    }
  }

  ghost predicate MountsAlone(d: Declaration) {
    forall x, y :: MayRunTogether(d, x, y) ==> !IsMount(d.items, x)
  }

  lemma NoSourcesNoEdges<R>(edges: seq<Routed<R>>, m: map<NodeId, Routed<R>>)
    requires RoutedAggregated(edges, m)
    ensures edges != [] ==> m != map[]
  {
    if edges != [] {
      assert edges[0] in edges && edges[0].source in m;
    }
  }

  lemma NothingToCheck(d: Declaration, agg: EdgeAggregation)
    requires Aggregates(d, agg)
    requires || (forall k :: 0 <= k < |d.items| ==> d.items[k].item.NodeItem?)
             || (agg.fanOutBySource == map[] && agg.conditionalFanOutBySource == map[])
    ensures MountsAlone(d)
  {
    if agg.fanOutBySource == map[] && agg.conditionalFanOutBySource == map[] {
      NoSourcesNoEdges(d.fanOutEdges, agg.fanOutBySource);
      NoSourcesNoEdges(d.conditionalFanOutEdges, agg.conditionalFanOutBySource);
      forall x, y ensures !MayRunTogether(d, x, y) {
        forall depth: nat ensures !CoActiveIds(d, depth, x, y) { NoFanOutNoPairs(d, depth, x, y); }
      }
    }
  }

  lemma ClosedWorklistIsSafe(d: Declaration, queued: set<Pair>)
    requires SoundPairs(d, queued) && AllCovered(d, queued, [])
    requires FanOutQueued(d.fanOutEdges, queued) && FanOutQueued(d.conditionalFanOutEdges, queued)
    ensures MountsAlone(d)
  {
    forall x, y | MayRunTogether(d, x, y) ensures !IsMount(d.items, x) {
      var depth: nat :| CoActiveIds(d, depth, x, y);
      ClosedPairsCover(d, queued, depth, x, y);
    }
  }

  lemma MisplacedRefutes(d: Declaration, mount: NodeId)
    requires MisplacedMount(d, mount)
    ensures !MountsAlone(d)
  {
  }

  /** Queues the pairs of every fan-out. */
  method SeedAll(d: Declaration) returns (queued: set<Pair>, work: seq<Pair>, fault: Option<NodeId>)
    requires EdgeFault(d).None?
    ensures fault.Some? ==> MisplacedMount(d, fault.value)
    ensures fault.None? ==>
              && SoundPairs(d, queued) && AllCovered(d, queued, work) && (forall p :: p in work ==> p in queued)
              && FanOutQueued(d.fanOutEdges, queued) && FanOutQueued(d.conditionalFanOutEdges, queued)
  {
    queued, work, fault := {}, [], None;
    queued, work, fault := Seed(d, FanOutKind, d.fanOutEdges, queued, work);
    if fault.Some? { return; }
    queued, work, fault := Seed(d, ConditionalFanOutKind, d.conditionalFanOutEdges, queued, work);
  }

  /** One round of the loop: the pair is covered and the measure drops. */
  lemma PairDone(d: Declaration, queued: set<Pair>, work: seq<Pair>, queued': set<Pair>, work': seq<Pair>)
    requires work != [] && Grew(queued, work[1..], queued', work')
    requires SoundPairs(d, queued) && SoundPairs(d, queued') && AllCovered(d, queued, work)
    requires forall p :: p in work ==> p in queued
    requires Covered(d, queued', work[0].0, work[0].1)
    ensures AllCovered(d, queued', work') && forall p :: p in work' ==> p in queued'
    ensures |AllPairs(d) - queued'| < |AllPairs(d) - queued|
            || (|AllPairs(d) - queued'| == |AllPairs(d) - queued| && |work'| < |work|)
    ensures forall x, y :: Canonical(x, y) in queued ==> Canonical(x, y) in queued'
    ensures FanOutQueued(d.fanOutEdges, queued) ==> FanOutQueued(d.fanOutEdges, queued')
    ensures FanOutQueued(d.conditionalFanOutEdges, queued) ==> FanOutQueued(d.conditionalFanOutEdges, queued')
  {
    hide AllCovered, SoundPairs, Covered, FanOutQueued;
    RestCovered(d, queued, work, queued', work');
    FewerLeft(d, queued, work, queued', work');
    if FanOutQueued(d.fanOutEdges, queued) { FanOutsStayQueued(d.fanOutEdges, queued, queued'); }
    if FanOutQueued(d.conditionalFanOutEdges, queued) {
      FanOutsStayQueued(d.conditionalFanOutEdges, queued, queued');
    }
  }

  lemma RestCovered(d: Declaration, queued: set<Pair>, work: seq<Pair>, queued': set<Pair>, work': seq<Pair>)
    requires work != [] && Grew(queued, work[1..], queued', work') && AllCovered(d, queued, work)
    requires forall p :: p in work ==> p in queued
    requires Covered(d, queued', work[0].0, work[0].1)
    ensures AllCovered(d, queued', work') && forall p :: p in work' ==> p in queued'
  {
    assert work == [work[0]] + work[1..];
  }

  lemma FewerLeft(d: Declaration, queued: set<Pair>, work: seq<Pair>, queued': set<Pair>, work': seq<Pair>)
    requires work != [] && Grew(queued, work[1..], queued', work') && SoundPairs(d, queued')
    ensures |AllPairs(d) - queued'| < |AllPairs(d) - queued|
            || (|AllPairs(d) - queued'| == |AllPairs(d) - queued| && |work'| < |work|)
  {
    if queued' != queued {
      var p :| p in queued' && p !in queued;
      assert AllPairs(d) - queued' < AllPairs(d) - queued;
      SmallerSet(AllPairs(d) - queued', AllPairs(d) - queued);
    }
  }

  lemma FanOutsStayQueued<R>(edges: seq<Routed<R>>, queued: set<Pair>, queued': set<Pair>)
    requires queued <= queued' && FanOutQueued(edges, queued)
    ensures FanOutQueued(edges, queued')
  {
  }

  /** The worklist stops, accepts exactly the declarations in which no mount may
      run beside another item, and on rejection names such a mount. */
  method ValidateSubgraphFrontiers(d: Declaration, agg: EdgeAggregation) returns (fault: Option<GraphCompileError>)
    requires ValidDeclaration(d) && Aggregates(d, agg) && EdgeFault(d).None? && ShapeFault(d).None?
    ensures fault.None? <==> MountsAlone(d)
    ensures fault.Some? ==> fault.value.SubgraphInParallelFrontier? && MisplacedMount(d, fault.value.id)
  {
    hide *;
    if (forall k :: 0 <= k < |d.items| ==> d.items[k].item.NodeItem?)
       || (agg.fanOutBySource == map[] && agg.conditionalFanOutBySource == map[])
    {
      NothingToCheck(d, agg);
      return None;
    }
    var queued: set<Pair>, work: seq<Pair>, mount: Option<NodeId>;
    queued, work, mount := SeedAll(d);
    if mount.Some? { MisplacedRefutes(d, mount.value); return Some(SubgraphInParallelFrontier(mount.value)); }
    while work != []
      invariant SoundPairs(d, queued) && AllCovered(d, queued, work)
      invariant forall p :: p in work ==> p in queued
      invariant FanOutQueued(d.fanOutEdges, queued) && FanOutQueued(d.conditionalFanOutEdges, queued)
      decreases |AllPairs(d) - queued|, |work|
    {
      var pair := work[0];
      ghost var queued0, work0 := queued, work;
      queued, work, mount := ProcessPair(d, agg, pair.0, pair.1, queued, work[1..]);
      if mount.Some? { MisplacedRefutes(d, mount.value); return Some(SubgraphInParallelFrontier(mount.value)); }
      PairDone(d, queued0, work0, queued, work);
    }
    ClosedWorklistIsSafe(d, queued);
    fault := None;
  }
}
