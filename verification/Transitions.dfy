/** Compiled transitions, their resolution against a committed state and their
    remapping into another index space
    (crates/group-agent-core/src/transition.rs). */
module Transitions {
  import opened Base
  import opened Domain
  import opened Paths

  type Router = State -> Result<NodeId, Cause>
  type FanOutRouter = State -> Result<seq<NodeId>, Cause>

  /** A whitelist: END is the one identifier that maps to no index. */
  type Whitelist = map<NodeId, Option<nat>>

  datatype CompiledTransition =
    | Fixed(target: Option<nat>)
    | StaticFanOut(targets: seq<nat>)
    | Conditional(router: Router, allowed: Whitelist)
    | ConditionalFanOut(fanOutRouter: FanOutRouter, allowed: Whitelist)

  datatype RouteDecision = Single(path: NodePath) | Multiple(paths: seq<NodePath>)

  datatype TransitionError =
    | RouterFailed(cause: Cause)
    | InvalidTarget(id: NodeId)
    | EmptyTargets
    | DuplicateTarget(id: NodeId)

  /** One selected identifier with what the whitelist resolved it to. */
  datatype Choice = Choice(target: Option<nat>, id: NodeId)

  // ---- what a transition may activate ----

  ghost function WhitelistTargets(allowed: Whitelist): set<nat> {
    set id | id in allowed && allowed[id].Some? :: allowed[id].value
  }

  /** Every index some state could make this transition activate. */
  ghost function TargetSet(t: CompiledTransition): set<nat> {
    match t
    case Fixed(target) => if target.Some? then {target.value} else {}
    case StaticFanOut(targets) => set x | x in targets
    case Conditional(_, allowed) => WhitelistTargets(allowed)
    case ConditionalFanOut(_, allowed) => WhitelistTargets(allowed)
  }

  /** A router has at least one identifier to choose. */
  ghost predicate HasChoice(t: CompiledTransition) {
    t.Conditional? || t.ConditionalFanOut? ==> exists id :: id in t.allowed
  }

  /** Only the two fan-out kinds can activate two items at once. */
  predicate IsFanOut(t: CompiledTransition) { t.StaticFanOut? || t.ConditionalFanOut? }

  // ---- resolution ----

  function TargetIndices(target: Option<nat>): seq<nat> {
    if target.Some? then [target.value] else []
  }

  /** Checks a router's selection left to right: a repeat is reported before an
      undeclared identifier. */
  function Select(selected: seq<NodeId>, allowed: Whitelist, seen: set<NodeId>)
    : Result<seq<Choice>, TransitionError>
  {
    if selected == [] then Ok([])
    else if selected[0] in seen then Err(DuplicateTarget(selected[0]))
    else if selected[0] !in allowed then Err(InvalidTarget(selected[0]))
    else
      Prepend([Choice(allowed[selected[0]], selected[0])],
              Select(selected[1..], allowed, seen + {selected[0]}))
  }

  function Prepend(choices: seq<Choice>, rest: Result<seq<Choice>, TransitionError>)
    : Result<seq<Choice>, TransitionError>
  {
    if rest.Ok? then Ok(choices + rest.value) else rest
  }

  /** Compiled order, with END after every index. */
  predicate NotAfter(a: Choice, b: Choice) {
    b.target.None? || (a.target.Some? && a.target.value <= b.target.value)
  }

  function InsertChoice(c: Choice, sorted: seq<Choice>): seq<Choice> {
    if sorted == [] || NotAfter(c, sorted[0]) then [c] + sorted
    else [sorted[0]] + InsertChoice(c, sorted[1..])
  }

  function SortChoices(choices: seq<Choice>): seq<Choice> {
    if choices == [] then [] else InsertChoice(choices[0], SortChoices(choices[1..]))
  }

  function ChoiceTargets(choices: seq<Choice>): seq<nat> {
    if choices == [] then [] else TargetIndices(choices[0].target) + ChoiceTargets(choices[1..])
  }

  function SelectedChoices(router: FanOutRouter, allowed: Whitelist, state: State)
    : Result<seq<Choice>, TransitionError>
  {
    match router(state)
    case Err(cause) => Err(RouterFailed(cause))
    case Ok(selected) => if selected == [] then Err(EmptyTargets) else Select(selected, allowed, {})
  }

  /** The indices the transition activates in this state, in the order it
      appends them. */
  function RouteTargets(t: CompiledTransition, state: State): Result<seq<nat>, TransitionError> {
    match t
    case Fixed(target) => Ok(TargetIndices(target))
    case StaticFanOut(targets) => Ok(targets)
    case Conditional(router, allowed) =>
      (match router(state)
       case Err(cause) => Err(RouterFailed(cause))
       case Ok(id) => if id in allowed then Ok(TargetIndices(allowed[id])) else Err(InvalidTarget(id)))
    case ConditionalFanOut(router, allowed) =>
      (match SelectedChoices(router, allowed, state)
       case Err(error) => Err(error)
       case Ok(choices) => Ok(ChoiceTargets(SortChoices(choices))))
  }

  lemma OneSelected(allowed: Whitelist, id: NodeId)
    requires id in allowed
    ensures Select([id], allowed, {}) == Ok([Choice(allowed[id], id)])
    ensures ChoiceTargets(SortChoices([Choice(allowed[id], id)])) == TargetIndices(allowed[id])
  {
    var choice := Choice(allowed[id], id);
    assert [id][1..] == [];
    assert Select([id], allowed, {}) == Prepend([choice], Select([id][1..], allowed, {id}));
    assert [choice] + [] == [choice];
    assert [choice][1..] == [];
    assert SortChoices([choice]) == [choice];
  }

  lemma PrependNothing(rest: Result<seq<Choice>, TransitionError>)
    ensures Prepend([], rest) == rest
  {
    if rest.Ok? {
      assert [] + rest.value == rest.value;
    }
  }

  lemma PrependPrepend(a: seq<Choice>, b: seq<Choice>, rest: Result<seq<Choice>, TransitionError>)
    ensures Prepend(a, Prepend(b, rest)) == Prepend(a + b, rest)
  {
    if rest.Ok? {
      assert a + (b + rest.value) == (a + b) + rest.value;
    }
  }

  lemma {:induction false} ChoiceTargetsConcat(a: seq<Choice>, b: seq<Choice>)
    ensures ChoiceTargets(a + b) == ChoiceTargets(a) + ChoiceTargets(b)
  {
    if a == [] {
      assert a + b == b;
    } else {
      assert (a + b)[1..] == a[1..] + b;
      ChoiceTargetsConcat(a[1..], b);
    }
  }

  function ChoicePath(choice: Choice, graphPath: GraphPath, pathAt: nat -> NodePath): NodePath {
    if choice.target.Some? then pathAt(choice.target.value) else NewNodePath(graphPath, choice.id)
  }

  /** A chosen item is named by its own path, END inside the namespace. */
  ghost predicate NamesChoice(path: NodePath, choice: Choice, graphPath: GraphPath, pathAt: nat -> NodePath) {
    match choice.target
    case Some(index) => path == pathAt(index)
    case None => path == graphPath + [choice.id]
  }

  /** What is reported for a routed transition: one path per choice, in the
      order the targets were appended, END named by its own identifier. */
  ghost predicate Reports(decision: Option<RouteDecision>, t: CompiledTransition, state: State,
                          graphPath: GraphPath, pathAt: nat -> NodePath)
  {
    match t
    case Fixed(_) => decision.None?
    case StaticFanOut(_) => decision.None?
    case Conditional(router, allowed) =>
      && router(state).Ok? && router(state).value in allowed
      && decision.Some? && decision.value.Single?
      && NamesChoice(decision.value.path, Choice(allowed[router(state).value], router(state).value), graphPath, pathAt)
    case ConditionalFanOut(router, allowed) =>
      && SelectedChoices(router, allowed, state).Ok?
      && var sorted := SortChoices(SelectedChoices(router, allowed, state).value);
      && decision.Some? && decision.value.Multiple? && |decision.value.paths| == |sorted|
      && forall i :: 0 <= i < |sorted| ==>
           NamesChoice(decision.value.paths[i], sorted[i], graphPath, pathAt)
  }

  /** The whitelist loop over a router's selection. */
  method CheckSelection(selected: seq<NodeId>, allowed: Whitelist)
    returns (r: Result<seq<Choice>, TransitionError>)
    ensures r == Select(selected, allowed, {})
  {
    var seen, resolved := {}, [];
    assert selected[0..] == selected;
    PrependNothing(Select(selected, allowed, {}));
    for i := 0 to |selected|
      invariant Select(selected, allowed, {}) == Prepend(resolved, Select(selected[i..], allowed, seen))
    {
      var id := selected[i];
      if id in seen { return Err(DuplicateTarget(id)); }
      if id !in allowed { return Err(InvalidTarget(id)); }
      assert selected[i..][1..] == selected[i + 1..];
      PrependPrepend(resolved, [Choice(allowed[id], id)], Select(selected[i + 1..], allowed, seen + {id}));
      seen := seen + {id};
      resolved := resolved + [Choice(allowed[id], id)];
    }
    assert resolved + [] == resolved;
    r := Ok(resolved);
  }

  lemma NoChoiceTargets()
    ensures ChoiceTargets([]) == []
  {
  }

  lemma OneMoreChoice(choices: seq<Choice>, i: nat)
    requires i < |choices|
    ensures ChoiceTargets(choices[..i + 1]) == ChoiceTargets(choices[..i]) + TargetIndices(choices[i].target)
  {
    assert choices[..i + 1] == choices[..i] + [choices[i]];
    assert [choices[i]][1..] == [];
    ChoiceTargetsConcat(choices[..i], [choices[i]]);
  }

  method AppendChoices(sorted: seq<Choice>, graphPath: GraphPath, before: seq<nat>, pathAt: nat -> NodePath)
    returns (targets: seq<nat>, paths: seq<NodePath>)
    ensures targets == before + ChoiceTargets(sorted)
    ensures |paths| == |sorted|
    ensures forall k :: 0 <= k < |sorted| ==> NamesChoice(paths[k], sorted[k], graphPath, pathAt)
  {
    hide ChoiceTargets;
    targets, paths := before, [];
    NoChoiceTargets();
    assert before + [] == before;
    for i := 0 to |sorted|
      invariant |paths| == i
      invariant forall k :: 0 <= k < i ==> NamesChoice(paths[k], sorted[k], graphPath, pathAt)
      invariant targets == before + ChoiceTargets(sorted[..i])
    {
      paths := paths + [ChoicePath(sorted[i], graphPath, pathAt)];
      OneMoreChoice(sorted, i);
      assert before + ChoiceTargets(sorted[..i]) + TargetIndices(sorted[i].target)
             == before + (ChoiceTargets(sorted[..i]) + TargetIndices(sorted[i].target));
      targets := targets + TargetIndices(sorted[i].target);
    }
    assert sorted[..|sorted|] == sorted;
  }

  /** Appends the selected targets to the frontier under construction; on an
      error the frontier is left as it was. */
  method ResolveInto(t: CompiledTransition, state: State, graphPath: GraphPath, before: seq<nat>,
                     pathAt: nat -> NodePath)
    returns (targets: seq<nat>, r: Result<Option<RouteDecision>, TransitionError>)
    ensures match RouteTargets(t, state)
            case Ok(selected) =>
              targets == before + selected && r.Ok? && Reports(r.value, t, state, graphPath, pathAt)
            case Err(error) => targets == before && r == Err(error)
  {
    targets := before;
    match t
    case Fixed(target) =>
      targets := before + TargetIndices(target);
      r := Ok(None);
    case StaticFanOut(compiledTargets) =>
      targets := before + compiledTargets;
      r := Ok(None);
    case Conditional(router, allowed) =>
      var routed := router(state);
      if routed.Err? { return targets, Err(RouterFailed(routed.error)); }
      if routed.value !in allowed { return targets, Err(InvalidTarget(routed.value)); }
      var choice := Choice(allowed[routed.value], routed.value);
      targets := before + TargetIndices(choice.target);
      r := Ok(Some(Single(ChoicePath(choice, graphPath, pathAt))));
    case ConditionalFanOut(router, allowed) =>
      var routed := router(state);
      if routed.Err? { return targets, Err(RouterFailed(routed.error)); }
      var selected := routed.value;
      if selected == [] { return targets, Err(EmptyTargets); }
      var resolved := CheckSelection(selected, allowed);
      if resolved.Err? { return targets, Err(resolved.error); }
      var sorted := SortChoices(resolved.value);
      var paths;
      targets, paths := AppendChoices(sorted, graphPath, before, pathAt);
      r := Ok(Some(Multiple(paths)));
  }

  // ---- what resolution promises ----

  ghost predicate DistinctIds(ids: seq<NodeId>) {
    forall i, j :: 0 <= i < j < |ids| ==> ids[i] != ids[j]
  }

  lemma {:induction false} SelectIsExact(selected: seq<NodeId>, allowed: Whitelist, seen: set<NodeId>)
    ensures Select(selected, allowed, seen).Ok? <==>
            DistinctIds(selected) && forall id :: id in selected ==> id in allowed && id !in seen
    ensures Select(selected, allowed, seen).Ok? ==>
              var choices := Select(selected, allowed, seen).value;
              && |choices| == |selected|
              && forall i :: 0 <= i < |choices| ==>
                   selected[i] in allowed && choices[i] == Choice(allowed[selected[i]], selected[i])
  {
    if selected != [] {
      var first, rest := selected[0], selected[1..];
      assert selected == [first] + rest;
      SelectIsExact(rest, allowed, seen + {first});
      if DistinctIds(selected) {
        assert DistinctIds(rest);
        assert first !in rest;
      }
      if DistinctIds(rest) && first !in rest {
        forall i, j | 0 <= i < j < |selected| ensures selected[i] != selected[j] {
          if i == 0 { assert selected[j] == rest[j - 1]; } else { assert selected[i] == rest[i - 1]; }
        }
      }
    }
  }

  /** The identifier at k repeats an earlier one or is not declared. */
  predicate BadAt(selected: seq<NodeId>, declared: set<NodeId>, k: nat)
    requires k < |selected|
  {
    selected[k] in selected[..k] || selected[k] !in declared
  }

  /** The first such identifier. */
  ghost predicate FirstBad(selected: seq<NodeId>, declared: set<NodeId>, k: nat) {
    k < |selected| && BadAt(selected, declared, k) && forall j :: 0 <= j < k ==> !BadAt(selected, declared, j)
  }

  /** A repeat is named before it is looked up. */
  function FaultOf(selected: seq<NodeId>, k: nat): TransitionError
    requires k < |selected|
  {
    if selected[k] in selected[..k] then DuplicateTarget(selected[k]) else InvalidTarget(selected[k])
  }

  ghost predicate RefusedWith(selected: seq<NodeId>, declared: set<NodeId>, error: TransitionError) {
    exists k: nat :: FirstBad(selected, declared, k) && error == FaultOf(selected, k)
  }

  /** A selection that is not accepted is refused with its first repeat or
      undeclared identifier. */
  lemma SelectReports(selected: seq<NodeId>, allowed: Whitelist) returns (k: nat)
    requires Select(selected, allowed, {}).Err?
    ensures FirstBad(selected, allowed.Keys, k) && Select(selected, allowed, {}) == Err(FaultOf(selected, k))
  {
    var none: seq<NodeId> := [];
    assert selected == none + selected && (set id | id in none) == {};
    k := SelectReportsFrom(none, selected, allowed);
  }

  lemma {:induction false} SelectReportsFrom(before: seq<NodeId>, rest: seq<NodeId>, allowed: Whitelist)
    returns (k: nat)
    requires Select(rest, allowed, set id | id in before).Err?
    requires forall j :: 0 <= j < |before| ==> !BadAt(before + rest, allowed.Keys, j)
    ensures FirstBad(before + rest, allowed.Keys, k)
    ensures Select(rest, allowed, set id | id in before) == Err(FaultOf(before + rest, k))
    decreases |rest|
  {
    var all, n, id := before + rest, |before|, rest[0];
    assert all[..n] == before && all[n] == id;
    if BadAt(all, allowed.Keys, n) {
      k := n;
    } else {
      var more := before + [id];
      assert more + rest[1..] == all;
      assert (set x | x in more) == (set x | x in before) + {id};
      k := SelectReportsFrom(more, rest[1..], allowed);
    }
  }

  lemma {:induction false} InsertChoiceKeepsChoices(c: Choice, sorted: seq<Choice>)
    ensures forall d :: d in InsertChoice(c, sorted) <==> d == c || d in sorted
  {
    if sorted != [] && !NotAfter(c, sorted[0]) {
      InsertChoiceKeepsChoices(c, sorted[1..]);
      assert sorted == [sorted[0]] + sorted[1..];
    }
  }

  lemma {:induction false} SortChoicesKeepsChoices(choices: seq<Choice>)
    ensures forall d :: d in SortChoices(choices) <==> d in choices
  {
    if choices != [] {
      SortChoicesKeepsChoices(choices[1..]);
      InsertChoiceKeepsChoices(choices[0], SortChoices(choices[1..]));
      assert choices == [choices[0]] + choices[1..];
    }
  }

  lemma {:induction false} ChoiceTargetsAre(choices: seq<Choice>)
    ensures forall x :: x in ChoiceTargets(choices) <==> exists d :: d in choices && d.target == Some(x)
  {
    if choices != [] {
      ChoiceTargetsAre(choices[1..]);
      assert choices == [choices[0]] + choices[1..];
      forall x ensures x in ChoiceTargets(choices) <==> exists d :: d in choices && d.target == Some(x) {
        if x in TargetIndices(choices[0].target) {
          assert choices[0] in choices && choices[0].target == Some(x);
        }
      }
    }
  }

  /** Distinct identifiers of the whitelist name distinct indices. */
  ghost predicate NamesApart(allowed: Whitelist) {
    forall a, b :: a in allowed && b in allowed && a != b && allowed[a].Some? ==> allowed[a] != allowed[b]
  }

  /** Indices ascending, END last. */
  ghost predicate StrictChoices(choices: seq<Choice>) {
    forall i, j :: 0 <= i < j < |choices| && choices[j].target.Some? ==>
      choices[i].target.Some? && choices[i].target.value < choices[j].target.value
  }

  lemma {:induction false} InsertChoiceIsStrict(c: Choice, sorted: seq<Choice>)
    requires StrictChoices(sorted)
    requires forall d :: d in sorted && c.target.Some? ==> d.target != c.target
    ensures StrictChoices(InsertChoice(c, sorted))
  {
    if sorted != [] {
      if NotAfter(c, sorted[0]) {
        forall j | 0 <= j < |sorted| && sorted[j].target.Some? && c.target.Some?
          ensures c.target.value < sorted[j].target.value
        {
          assert sorted[0] in sorted;
        }
        EndsAtOnce(c, sorted);
      } else {
        InsertChoiceIsStrict(c, sorted[1..]);
        var rest := InsertChoice(c, sorted[1..]);
        InsertChoiceKeepsChoices(c, sorted[1..]);
        forall j | 0 <= j < |rest| && rest[j].target.Some?
          ensures sorted[0].target.Some? && sorted[0].target.value < rest[j].target.value
        {
          assert rest[j] in rest;
          if rest[j] != c {
            var k :| 0 <= k < |sorted[1..]| && sorted[1..][k] == rest[j];
            assert sorted[k + 1] == rest[j];
          } else {
            assert sorted[0] in sorted;
          }
        }
      }
    }
  }

  /** Nothing with an index comes after END. */
  lemma EndsAtOnce(c: Choice, sorted: seq<Choice>)
    requires StrictChoices(sorted) && sorted != [] && NotAfter(c, sorted[0])
    ensures c.target.None? ==> forall j :: 0 <= j < |sorted| ==> sorted[j].target.None?
  {
  }

  lemma {:induction false} SortChoicesIsStrict(choices: seq<Choice>)
    requires forall i, j :: 0 <= i < j < |choices| && choices[i].target.Some? ==> choices[i].target != choices[j].target
    ensures StrictChoices(SortChoices(choices))
  {
    if choices != [] {
      SortChoicesIsStrict(choices[1..]);
      SortChoicesKeepsChoices(choices[1..]);
      InsertChoiceIsStrict(choices[0], SortChoices(choices[1..]));
    }
  }

  lemma {:induction false} StrictChoicesAscend(choices: seq<Choice>)
    requires StrictChoices(choices)
    ensures StrictlyAscending(ChoiceTargets(choices))
  {
    if choices != [] {
      StrictChoicesAscend(choices[1..]);
      ChoiceTargetsAre(choices[1..]);
      var rest := ChoiceTargets(choices[1..]);
      forall k | 0 <= k < |rest| ensures choices[0].target.Some? && choices[0].target.value < rest[k] {
        assert rest[k] in rest;
        var d :| d in choices[1..] && d.target == Some(rest[k]);
        var i :| 0 <= i < |choices[1..]| && choices[1..][i] == d;
        assert choices[i + 1] == d;
      }
    }
  }

  /** A fan-out activates each selected index once, in compiled order. */
  lemma FanOutActivatesEachOnce(router: FanOutRouter, allowed: Whitelist, state: State)
    requires NamesApart(allowed)
    ensures var r := RouteTargets(ConditionalFanOut(router, allowed), state);
            r.Ok? ==> StrictlyAscending(r.value)
  {
    hide SortChoices, ChoiceTargets, StrictChoices;
    var routed, r := router(state), RouteTargets(ConditionalFanOut(router, allowed), state);
    if r.Ok? {
      SelectIsExact(routed.value, allowed, {});
      var choices := Select(routed.value, allowed, {}).value;
      forall i, j | 0 <= i < j < |choices| && choices[i].target.Some? ensures choices[i].target != choices[j].target {
        assert routed.value[i] != routed.value[j];
      }
      SortChoicesIsStrict(choices);
      StrictChoicesAscend(SortChoices(choices));
    }
  }

  /** A conditional fan-out resolves exactly when its router selects at least one
      identifier, no identifier twice and only declared ones; it then activates
      exactly the indices of those identifiers, END contributing none, each once
      and in compiled order. */
  lemma {:induction false} FanOutActivatesTheSelection(router: FanOutRouter, allowed: Whitelist, state: State)
    ensures var routed := router(state); var r := RouteTargets(ConditionalFanOut(router, allowed), state);
            && (r.Ok? <==> routed.Ok? && routed.value != [] && DistinctIds(routed.value)
                           && forall id :: id in routed.value ==> id in allowed)
            && (r.Ok? ==> forall x :: x in r.value <==>
                  exists id :: id in routed.value && id in allowed && allowed[id] == Some(x))
            && (r.Ok? && NamesApart(allowed) ==> StrictlyAscending(r.value))
  {
    if NamesApart(allowed) { FanOutActivatesEachOnce(router, allowed, state); }
    hide NamesApart, SortChoices, ChoiceTargets;
    var routed := router(state);
    if routed.Ok? && routed.value != [] {
      SelectIsExact(routed.value, allowed, {});
      hide Select, DistinctIds;
      if RouteTargets(ConditionalFanOut(router, allowed), state).Ok? {
        SelectedTargets(routed.value, allowed);
      }
    }
  }

  /** The indices of an accepted selection. */
  lemma SelectedTargets(selected: seq<NodeId>, allowed: Whitelist)
    requires Select(selected, allowed, {}).Ok?
    ensures forall x :: x in ChoiceTargets(SortChoices(Select(selected, allowed, {}).value)) <==>
              exists id :: id in selected && id in allowed && allowed[id] == Some(x)
  {
    SelectIsExact(selected, allowed, {});
    hide Select, DistinctIds, SortChoices, ChoiceTargets;
    var choices := Select(selected, allowed, {}).value;
    SortChoicesKeepsChoices(choices);
    ChoiceTargetsAre(SortChoices(choices));
    forall x ensures x in ChoiceTargets(SortChoices(choices)) <==>
                     exists id :: id in selected && id in allowed && allowed[id] == Some(x)
    {
      if x in ChoiceTargets(SortChoices(choices)) {
        var d :| d in choices && d.target == Some(x);
        var i :| 0 <= i < |choices| && choices[i] == d;
        assert selected[i] in selected;
      }
      if id :| id in selected && id in allowed && allowed[id] == Some(x) {
        var i :| 0 <= i < |selected| && selected[i] == id;
        assert choices[i] in choices && choices[i].target == Some(x);
      }
    }
  }

  /** Resolution stays inside the compile-time target set, and only a fan-out
      activates more than one index. */
  lemma {:induction false} ResolutionStaysDeclared(t: CompiledTransition, state: State)
    requires RouteTargets(t, state).Ok?
    ensures forall x :: x in RouteTargets(t, state).value ==> x in TargetSet(t)
    ensures !IsFanOut(t) ==> |RouteTargets(t, state).value| <= 1
  {
    if t.ConditionalFanOut? {
      FanOutActivatesTheSelection(t.fanOutRouter, t.allowed, state);
    }
  }

  // ---- remapping ----

  ghost predicate WithinRange(t: CompiledTransition, size: nat) {
    forall x :: x in TargetSet(t) ==> x < size
  }

  function RemapTarget(target: Option<nat>, mapping: seq<nat>): Option<nat>
    requires target.Some? ==> target.value < |mapping|
  {
    if target.Some? then Some(mapping[target.value]) else None
  }

  ghost predicate WhitelistWithin(allowed: Whitelist, size: nat) {
    forall id :: id in allowed && allowed[id].Some? ==> allowed[id].value < size
  }

  function RemapAllowed(allowed: Whitelist, mapping: seq<nat>): (r: Whitelist)
    requires WhitelistWithin(allowed, |mapping|)
  {
    map id | id in allowed :: RemapTarget(allowed[id], mapping)
  }

  lemma RangeOfParts(t: CompiledTransition, size: nat)
    requires WithinRange(t, size)
    ensures t.Fixed? && t.target.Some? ==> t.target.value < size
    ensures t.StaticFanOut? ==> InBounds(t.targets, size)
    ensures t.Conditional? || t.ConditionalFanOut? ==> WhitelistWithin(t.allowed, size)
  {
    if t.Fixed? && t.target.Some? {
      assert t.target.value in TargetSet(t);
    }
    if t.StaticFanOut? {
      forall i | 0 <= i < |t.targets| ensures t.targets[i] < size {
        assert t.targets[i] in TargetSet(t);
      }
    }
    if t.Conditional? || t.ConditionalFanOut? {
      forall id | id in t.allowed && t.allowed[id].Some? ensures t.allowed[id].value < size {
        assert t.allowed[id].value in TargetSet(t);
      }
    }
  }

  function Remap(t: CompiledTransition, mapping: seq<nat>): CompiledTransition
    requires WithinRange(t, |mapping|)
  {
    RangeOfParts(t, |mapping|);
    match t
    case Fixed(target) => Fixed(RemapTarget(target, mapping))
    case StaticFanOut(targets) => StaticFanOut(Lift(targets, mapping))
    case Conditional(router, allowed) => Conditional(router, RemapAllowed(allowed, mapping))
    case ConditionalFanOut(router, allowed) => ConditionalFanOut(router, RemapAllowed(allowed, mapping))
  }

  lemma RemapHasChoice(t: CompiledTransition, mapping: seq<nat>)
    requires WithinRange(t, |mapping|) && HasChoice(t)
    ensures HasChoice(Remap(t, mapping))
  {
    if t.Conditional? || t.ConditionalFanOut? {
      var id :| id in t.allowed;
      assert id in Remap(t, mapping).allowed;
    }
  }

  /** The targets of a remapped transition are the remapped targets. */
  lemma RemapTargetSet(t: CompiledTransition, mapping: seq<nat>)
    requires WithinRange(t, |mapping|)
    ensures TargetSet(Remap(t, mapping)) == set x | x in TargetSet(t) :: mapping[x]
    ensures IsFanOut(Remap(t, mapping)) == IsFanOut(t)
  {
    RangeOfParts(t, |mapping|);
    var remapped := Remap(t, mapping);
    forall y | y in TargetSet(remapped) ensures exists x :: x in TargetSet(t) && y == mapping[x] {
      if t.StaticFanOut? {
        var i :| 0 <= i < |remapped.targets| && remapped.targets[i] == y;
        assert t.targets[i] in TargetSet(t) && y == mapping[t.targets[i]];
      } else if !t.Fixed? {
        var id :| id in remapped.allowed && remapped.allowed[id] == Some(y);
        assert t.allowed[id].value in TargetSet(t) && y == mapping[t.allowed[id].value];
      }
    }
    forall x | x in TargetSet(t) ensures mapping[x] in TargetSet(remapped) {
      if t.StaticFanOut? {
        var i :| 0 <= i < |t.targets| && t.targets[i] == x;
        assert remapped.targets[i] == mapping[x];
      } else if !t.Fixed? {
        var id :| id in t.allowed && t.allowed[id] == Some(x);
        assert remapped.allowed[id] == Some(mapping[x]);
      }
    }
  }

  ghost predicate ChoicesWithin(choices: seq<Choice>, size: nat) {
    forall i :: 0 <= i < |choices| && choices[i].target.Some? ==> choices[i].target.value < size
  }

  ghost function LiftChoice(c: Choice, mapping: seq<nat>): Choice
    requires c.target.Some? ==> c.target.value < |mapping|
  {
    Choice(RemapTarget(c.target, mapping), c.id)
  }

  ghost function LiftChoices(choices: seq<Choice>, mapping: seq<nat>): seq<Choice>
    requires ChoicesWithin(choices, |mapping|)
  {
    if choices == [] then [] else [LiftChoice(choices[0], mapping)] + LiftChoices(choices[1..], mapping)
  }

  lemma LiftMore(c: Choice, rest: seq<Choice>, mapping: seq<nat>)
    requires (c.target.Some? ==> c.target.value < |mapping|) && ChoicesWithin(rest, |mapping|)
    ensures ChoicesWithin([c] + rest, |mapping|)
    ensures LiftChoices([c] + rest, mapping) == [LiftChoice(c, mapping)] + LiftChoices(rest, mapping)
  {
    assert ([c] + rest)[1..] == rest;
  }

  lemma RemapAllowedAt(allowed: Whitelist, mapping: seq<nat>, id: NodeId)
    requires WhitelistWithin(allowed, |mapping|)
    ensures id in RemapAllowed(allowed, mapping) <==> id in allowed
    ensures id in allowed ==>
              && (allowed[id].Some? ==> allowed[id].value < |mapping|)
              && RemapAllowed(allowed, mapping)[id] == RemapTarget(allowed[id], mapping)
  {
  }

  lemma {:induction false} SelectCommutesWithRemap(selected: seq<NodeId>, allowed: Whitelist, seen: set<NodeId>,
                                                   mapping: seq<nat>)
    requires WhitelistWithin(allowed, |mapping|)
    ensures var before, after :=
              Select(selected, allowed, seen), Select(selected, RemapAllowed(allowed, mapping), seen);
            match before
            case Err(error) => after == Err(error)
            case Ok(choices) => ChoicesWithin(choices, |mapping|) && after == Ok(LiftChoices(choices, mapping))
  {
    if selected != [] {
      RemapAllowedAt(allowed, mapping, selected[0]);
      hide RemapAllowed, RemapTarget, WhitelistWithin, ChoicesWithin, LiftChoices;
      if selected[0] !in seen && selected[0] in allowed {
        var id := selected[0];
        SelectCommutesWithRemap(selected[1..], allowed, seen + {id}, mapping);
        var rest := Select(selected[1..], allowed, seen + {id});
        if rest.Ok? { LiftMore(Choice(allowed[id], id), rest.value, mapping); }
      }
    }
  }

  lemma LiftKeepsOrder(a: Choice, b: Choice, mapping: seq<nat>)
    requires ChoicesWithin([a], |mapping|) && ChoicesWithin([b], |mapping|) && StrictlyAscending(mapping)
    ensures (a.target.Some? ==> a.target.value < |mapping|) && (b.target.Some? ==> b.target.value < |mapping|)
    ensures NotAfter(LiftChoice(a, mapping), LiftChoice(b, mapping)) <==> NotAfter(a, b)
  {
    assert [a][0] == a && [b][0] == b;
  }

  lemma {:induction false} InsertChoiceCommutesWithLift(c: Choice, sorted: seq<Choice>, mapping: seq<nat>)
    requires (c.target.Some? ==> c.target.value < |mapping|) && ChoicesWithin(sorted, |mapping|)
    requires StrictlyAscending(mapping)
    ensures ChoicesWithin(InsertChoice(c, sorted), |mapping|)
    ensures InsertChoice(LiftChoice(c, mapping), LiftChoices(sorted, mapping))
            == LiftChoices(InsertChoice(c, sorted), mapping)
  {
    hide LiftChoice, StrictlyAscending, NotAfter;
    LiftMore(c, sorted, mapping);
    if sorted == [] {
      assert [c] + sorted == [c];
    } else {
      var first, rest := sorted[0], sorted[1..];
      LiftKeepsOrder(c, first, mapping);
      assert LiftChoices(sorted, mapping)[1..] == LiftChoices(rest, mapping);
      if !NotAfter(c, first) {
        InsertChoiceCommutesWithLift(c, rest, mapping);
        LiftMore(first, InsertChoice(c, rest), mapping);
      }
    }
  }

  lemma {:induction false} SortChoicesCommutesWithLift(choices: seq<Choice>, mapping: seq<nat>)
    requires ChoicesWithin(choices, |mapping|) && StrictlyAscending(mapping)
    ensures ChoicesWithin(SortChoices(choices), |mapping|)
    ensures SortChoices(LiftChoices(choices, mapping)) == LiftChoices(SortChoices(choices), mapping)
  {
    hide LiftChoice, StrictlyAscending, InsertChoice;
    if choices != [] {
      SortChoicesCommutesWithLift(choices[1..], mapping);
      assert LiftChoices(choices, mapping)[1..] == LiftChoices(choices[1..], mapping);
      InsertChoiceCommutesWithLift(choices[0], SortChoices(choices[1..]), mapping);
    }
  }

  lemma {:induction false} ChoiceTargetsCommuteWithLift(choices: seq<Choice>, mapping: seq<nat>)
    requires ChoicesWithin(choices, |mapping|)
    ensures InBounds(ChoiceTargets(choices), |mapping|)
    ensures ChoiceTargets(LiftChoices(choices, mapping)) == Lift(ChoiceTargets(choices), mapping)
  {
    if choices != [] {
      ChoiceTargetsCommuteWithLift(choices[1..], mapping);
      assert LiftChoices(choices, mapping)[1..] == LiftChoices(choices[1..], mapping);
      LiftConcat(TargetIndices(choices[0].target), ChoiceTargets(choices[1..]), mapping);
    }
  }

  lemma LiftTargetIndices(target: Option<nat>, mapping: seq<nat>)
    requires target.Some? ==> target.value < |mapping|
    ensures InBounds(TargetIndices(target), |mapping|)
    ensures TargetIndices(RemapTarget(target, mapping)) == Lift(TargetIndices(target), mapping)
  {
  }

  /** Routing through a remapped transition gives the remapped targets, in the
      same order, or the same error: the mapping only has to be ascending. */
  lemma {:induction false} RouteCommutesWithRemap(t: CompiledTransition, mapping: seq<nat>, state: State)
    requires WithinRange(t, |mapping|) && StrictlyAscending(mapping)
    ensures match RouteTargets(t, state)
            case Err(error) => RouteTargets(Remap(t, mapping), state) == Err(error)
            case Ok(targets) =>
              InBounds(targets, |mapping|)
              && RouteTargets(Remap(t, mapping), state) == Ok(Lift(targets, mapping))
  {
    RangeOfParts(t, |mapping|);
    match t
    case Fixed(target) =>
      LiftTargetIndices(target, mapping);
    case StaticFanOut(_) =>
    case Conditional(router, allowed) =>
      if router(state).Ok? && router(state).value in allowed {
        LiftTargetIndices(allowed[router(state).value], mapping);
      }
    case ConditionalFanOut(router, allowed) =>
      if router(state).Ok? && router(state).value != [] {
        var selected := router(state).value;
        SelectCommutesWithRemap(selected, allowed, {}, mapping);
        if Select(selected, allowed, {}).Ok? {
          var choices := Select(selected, allowed, {}).value;
          SortChoicesCommutesWithLift(choices, mapping);
          ChoiceTargetsCommuteWithLift(SortChoices(choices), mapping);
        }
      }
  }
}
