/** What an accepted stream collects, and which streams are accepted, said from the
    events alone (crates/group-agent-model/src/stream.rs:322-550;
    crates/group-agent-model/src/response.rs:161-239). */
module CollectorMeaning {
  import opened Base
  import opened UsageMerging
  import opened Collector
  import opened CollectorChannels

  // ---- many extension maps ----

  /** No key is given two values. */
  ghost predicate AllCompatible(maps: seq<Extensions>) {
    forall j, k, key :: 0 <= j < k < |maps| && key in maps[j] && key in maps[k] ==> maps[j][key] == maps[k][key]
  }

  /** m holds every key of the maps with its value, and nothing else. */
  ghost predicate IsUnion(maps: seq<Extensions>, m: Extensions) {
    && (forall key :: key in m ==> exists k :: 0 <= k < |maps| && key in maps[k])
    && (forall k, key :: 0 <= k < |maps| && key in maps[k] ==> key in m && m[key] == maps[k][key])
  }

  lemma UnionGrows(maps: seq<Extensions>, m: Extensions, next: Extensions)
    requires AllCompatible(maps) && IsUnion(maps, m)
    ensures AllCompatible(maps + [next]) <==> Compatible(m, next)
    ensures Compatible(m, next) ==> IsUnion(maps + [next], Merged(m, next))
  {
    hide IsUnion, AllCompatible, Merged;
    if Compatible(m, next) {
      CompatibleGrows(maps, m, next);
      MergedIsUnion(maps, m, next);
    }
    if AllCompatible(maps + [next]) {
      forall key ensures !Clashes(m, next, key) { NoClash(maps, m, next, key); }
    }
  }

  lemma CompatibleGrows(maps: seq<Extensions>, m: Extensions, next: Extensions)
    requires AllCompatible(maps) && IsUnion(maps, m) && Compatible(m, next)
    ensures AllCompatible(maps + [next])
  {
    var all := maps + [next];
    forall j, k, key | 0 <= j < k < |all| && key in all[j] && key in all[k] ensures all[j][key] == all[k][key] {
      if k == |maps| { assert !Clashes(m, next, key); }
    }
  }

  lemma MergedIsUnion(maps: seq<Extensions>, m: Extensions, next: Extensions)
    requires IsUnion(maps, m) && Compatible(m, next)
    ensures IsUnion(maps + [next], Merged(m, next))
  {
    var all, merged := maps + [next], Merged(m, next);
    forall key | key in merged ensures exists k :: 0 <= k < |all| && key in all[k] {
      if key in m {
        var k :| 0 <= k < |maps| && key in maps[k];
        assert key in all[k];
      } else {
        assert key in all[|maps|];
      }
    }
    forall k, key | 0 <= k < |all| && key in all[k] ensures key in merged && merged[key] == all[k][key] {
      if k == |maps| { assert !Clashes(m, next, key); }
    }
  }

  lemma NoClash(maps: seq<Extensions>, m: Extensions, next: Extensions, key: Key)
    requires IsUnion(maps, m) && AllCompatible(maps + [next])
    ensures !Clashes(m, next, key)
  {
    var all := maps + [next];
    if key in m && key in next {
      var k :| 0 <= k < |maps| && key in maps[k];
      assert all[k][key] == all[|maps|][key];
    }
  }

  lemma UnionIsOne(maps: seq<Extensions>, a: Extensions, b: Extensions)
    requires IsUnion(maps, a) && IsUnion(maps, b)
    ensures a == b
  {
    forall key ensures key in a <==> key in b {
      if key in a { var k :| 0 <= k < |maps| && key in maps[k]; }
      if key in b { var k :| 0 <= k < |maps| && key in maps[k]; }
    }
    forall key | key in a ensures a[key] == b[key] { var k :| 0 <= k < |maps| && key in maps[k]; }
  }

  lemma PrefixCompatible(maps: seq<Extensions>, next: Extensions)
    requires AllCompatible(maps + [next])
    ensures AllCompatible(maps)
  {
    var all := maps + [next];
    assert forall k :: 0 <= k < |maps| ==> all[k] == maps[k];
  }

  // ---- one tool call ----

  /** The fragments of one call, in stream order. */
  ghost function Fragments(events: seq<Event>, index: nat): seq<ToolCallDelta> {
    if events == [] then []
    else
      var last := events[|events| - 1];
      Fragments(events[..|events| - 1], index)
      + if last.ToolDelta? && last.tool.index == index then [last.tool] else []
  }

  ghost function JoinedArguments(fragments: seq<ToolCallDelta>): Text {
    if fragments == [] then []
    else JoinedArguments(fragments[..|fragments| - 1]) + fragments[|fragments| - 1].arguments
  }

  ghost function ExtensionsOf(fragments: seq<ToolCallDelta>): (r: seq<Extensions>)
    ensures |r| == |fragments| && forall k :: 0 <= k < |r| ==> r[k] == fragments[k].extensions
  {
    seq(|fragments|, k requires 0 <= k < |fragments| => fragments[k].extensions)
  }

  /** At most one fragment carries an id, and at most one a name. */
  ghost predicate OneId(fragments: seq<ToolCallDelta>) {
    forall j, k :: 0 <= j < k < |fragments| ==> !(fragments[j].id.Some? && fragments[k].id.Some?)
  }

  ghost predicate OneName(fragments: seq<ToolCallDelta>) {
    forall j, k :: 0 <= j < k < |fragments| ==> !(fragments[j].name.Some? && fragments[k].name.Some?)
  }

  /** The id of the one fragment that has one. */
  ghost predicate IdSays(fragments: seq<ToolCallDelta>, callId: Option<ToolCallId>) {
    forall id :: callId == Some(id) <==> exists k :: 0 <= k < |fragments| && fragments[k].id == Some(id)
  }

  ghost predicate NameSays(fragments: seq<ToolCallDelta>, callName: Option<ToolName>) {
    forall name :: callName == Some(name) <==> exists k :: 0 <= k < |fragments| && fragments[k].name == Some(name)
  }

  /** The call is put together from these fragments: their id and name, their
      arguments one after the other, and the union of their extensions. */
  ghost predicate PutTogether(fragments: seq<ToolCallDelta>, call: Pending) {
    && call.arguments == JoinedArguments(fragments)
    && IdSays(fragments, call.id) && NameSays(fragments, call.name)
    && IsUnion(ExtensionsOf(fragments), call.extensions)
  }

  /** The fragments of one index keep within the limits and never contradict. */
  ghost predicate FragmentsFit(limits: Limits, fragments: seq<ToolCallDelta>) {
    && OneId(fragments) && OneName(fragments) && AllCompatible(ExtensionsOf(fragments))
    && (fragments != [] ==>
          && fragments[0].index <= limits.maxIndex
          && |JoinedArguments(fragments)| <= limits.maxArguments
          && forall m :: IsUnion(ExtensionsOf(fragments), m) ==> |m| <= limits.maxExtensions)
  }

  lemma {:induction false} FragmentsAreOfIndex(events: seq<Event>, index: nat)
    ensures forall k :: 0 <= k < |Fragments(events, index)| ==> Fragments(events, index)[k].index == index
  {
    if events != [] { FragmentsAreOfIndex(events[..|events| - 1], index); }
  }

  /** One more fragment: accepted exactly when all of them fit, and then put in its
      place. */
  lemma FragmentAdded(limits: Limits, fragments: seq<ToolCallDelta>, call: Pending, d: ToolCallDelta)
    requires FragmentsFit(limits, fragments) && PutTogether(fragments, call)
    requires forall k :: 0 <= k < |fragments| ==> fragments[k].index == d.index
    ensures CallAccepts(limits, call, d) <==> FragmentsFit(limits, fragments + [d])
    ensures CallAccepts(limits, call, d) ==> PutTogether(fragments + [d], CallAfter(call, d))
  {
    hide IdSays, NameSays, OneId, OneName, IsUnion, Compatible, Merged, AllCompatible;
    var all := fragments + [d];
    assert ExtensionsOf(all) == ExtensionsOf(fragments) + [d.extensions];
    assert all[..|fragments|] == fragments;
    UnionGrows(ExtensionsOf(fragments), call.extensions, d.extensions);
    IdsAdded(fragments, call, d);
    NamesAdded(fragments, call, d);
    if Compatible(call.extensions, d.extensions) {
      forall m | IsUnion(ExtensionsOf(all), m) ensures m == Merged(call.extensions, d.extensions) {
        UnionIsOne(ExtensionsOf(all), m, Merged(call.extensions, d.extensions));
      }
    }
  }

  lemma IdsAdded(fragments: seq<ToolCallDelta>, call: Pending, d: ToolCallDelta)
    requires OneId(fragments) && IdSays(fragments, call.id)
    ensures OneId(fragments + [d]) <==> !(d.id.Some? && call.id.Some?)
    ensures !(d.id.Some? && call.id.Some?) ==> IdSays(fragments + [d], CallAfter(call, d).id)
  {
    var all := fragments + [d];
    assert all[|fragments|] == d;
    if d.id.Some? && call.id.Some? {
      var k :| 0 <= k < |fragments| && fragments[k].id == Some(call.id.value);
      assert all[k].id.Some?;
    } else {
      forall j, k | 0 <= j < k < |all| ensures !(all[j].id.Some? && all[k].id.Some?) {
        if k == |fragments| && all[j].id.Some? { assert fragments[j].id == Some(fragments[j].id.value); }
      }
      forall id ensures CallAfter(call, d).id == Some(id) <==> exists k :: 0 <= k < |all| && all[k].id == Some(id) {
        if call.id == Some(id) {
          var k :| 0 <= k < |fragments| && fragments[k].id == Some(id);
          assert all[k].id == Some(id);
        }
        if k :| 0 <= k < |all| && all[k].id == Some(id) {
          if k < |fragments| { assert fragments[k].id == Some(id); }
        }
      }
    }
  }

  lemma NamesAdded(fragments: seq<ToolCallDelta>, call: Pending, d: ToolCallDelta)
    requires OneName(fragments) && NameSays(fragments, call.name)
    ensures OneName(fragments + [d]) <==> !(d.name.Some? && call.name.Some?)
    ensures !(d.name.Some? && call.name.Some?) ==> NameSays(fragments + [d], CallAfter(call, d).name)
  {
    var all := fragments + [d];
    assert all[|fragments|] == d;
    if d.name.Some? && call.name.Some? {
      var k :| 0 <= k < |fragments| && fragments[k].name == Some(call.name.value);
      assert all[k].name.Some?;
    } else {
      forall j, k | 0 <= j < k < |all| ensures !(all[j].name.Some? && all[k].name.Some?) {
        if k == |fragments| && all[j].name.Some? { assert fragments[j].name == Some(fragments[j].name.value); }
      }
      forall name
        ensures CallAfter(call, d).name == Some(name) <==> exists k :: 0 <= k < |all| && all[k].name == Some(name)
      {
        if call.name == Some(name) {
          var k :| 0 <= k < |fragments| && fragments[k].name == Some(name);
          assert all[k].name == Some(name);
        }
        if k :| 0 <= k < |all| && all[k].name == Some(name) {
          if k < |fragments| { assert fragments[k].name == Some(name); }
        }
      }
    }
  }

  lemma {:induction false} JoinedIsShorter(fragments: seq<ToolCallDelta>, d: ToolCallDelta)
    ensures JoinedArguments(fragments + [d]) == JoinedArguments(fragments) + d.arguments
  {
    assert (fragments + [d])[..|fragments|] == fragments;
  }

  /** Fragments that fit fit without the last. */
  lemma FragmentsFitBefore(limits: Limits, fragments: seq<ToolCallDelta>, d: ToolCallDelta)
    requires FragmentsFit(limits, fragments + [d])
    ensures FragmentsFit(limits, fragments)
  {
    var all := fragments + [d];
    JoinedIsShorter(fragments, d);
    assert ExtensionsOf(all) == ExtensionsOf(fragments) + [d.extensions];
    PrefixCompatible(ExtensionsOf(fragments), d.extensions);
    assert forall k :: 0 <= k < |fragments| ==> all[k] == fragments[k];
    forall m | fragments != [] && IsUnion(ExtensionsOf(fragments), m) ensures |m| <= limits.maxExtensions {
      UnionGrows(ExtensionsOf(fragments), m, d.extensions);
      MergedIsLarger(m, d.extensions);
    }
  }

  lemma MergedIsLarger(a: Extensions, b: Extensions)
    ensures |a| <= |Merged(a, b)|
  {
    MergedSize(a, b);
  }

  // ---- usage ----

  ghost function Snapshots(events: seq<Event>): seq<TokenUsage> {
    if events == [] then []
    else
      var last := events[|events| - 1];
      Snapshots(events[..|events| - 1]) + if last.Usage? then [last.usage] else []
  }

  /** The last reported value. */
  ghost function Latest(values: seq<Option<nat>>): Option<nat> {
    if values == [] then None
    else if values[|values| - 1].Some? then values[|values| - 1]
    else Latest(values[..|values| - 1])
  }

  ghost predicate NeverFalls(values: seq<Option<nat>>) {
    forall j, k :: 0 <= j < k < |values| && values[j].Some? && values[k].Some? ==> values[j].value <= values[k].value
  }

  ghost function Inputs(us: seq<TokenUsage>): (r: seq<Option<nat>>)
    ensures |r| == |us| && forall k :: 0 <= k < |r| ==> r[k] == us[k].input
  {
    seq(|us|, k requires 0 <= k < |us| => us[k].input)
  }

  ghost function Outputs(us: seq<TokenUsage>): (r: seq<Option<nat>>)
    ensures |r| == |us| && forall k :: 0 <= k < |r| ==> r[k] == us[k].output
  {
    seq(|us|, k requires 0 <= k < |us| => us[k].output)
  }

  ghost function Totals(us: seq<TokenUsage>): (r: seq<Option<nat>>)
    ensures |r| == |us| && forall k :: 0 <= k < |r| ==> r[k] == us[k].total
  {
    seq(|us|, k requires 0 <= k < |us| => us[k].total)
  }

  ghost function UsageExtensions(us: seq<TokenUsage>): (r: seq<Extensions>)
    ensures |r| == |us| && forall k :: 0 <= k < |r| ==> r[k] == us[k].extensions
  {
    seq(|us|, k requires 0 <= k < |us| => us[k].extensions)
  }

  /** The counters known after these snapshots add up: input and output together in
      64 bits, and under an explicit total. */
  ghost predicate AddsUp(us: seq<TokenUsage>) {
    var input, output, total := Latest(Inputs(us)), Latest(Outputs(us)), Latest(Totals(us));
    && (input.Some? && output.Some? ==> input.value + output.value <= 0xFFFF_FFFF_FFFF_FFFF)
    && (total.Some? ==> (if input.Some? then input.value else 0) + (if output.Some? then output.value else 0)
                        <= total.value)
  }

  /** No counter ever falls, the counters add up after every merge, and no key gets
      two values. */
  ghost predicate UsageFits(us: seq<TokenUsage>) {
    && NeverFalls(Inputs(us)) && NeverFalls(Outputs(us)) && NeverFalls(Totals(us))
    && AlwaysAddsUp(us) && AllCompatible(UsageExtensions(us))
  }

  /** After every merge the counters add up. */
  ghost predicate AlwaysAddsUp(us: seq<TokenUsage>) { forall n :: 2 <= n <= |us| ==> AddsUp(us[..n]) }

  /** The usage after these snapshots: what each counter last was, and all keys. */
  ghost predicate UsageSays(us: seq<TokenUsage>, u: Option<TokenUsage>) {
    && (u.None? <==> us == [])
    && (u.Some? ==>
          && u.value.input == Latest(Inputs(us)) && u.value.output == Latest(Outputs(us))
          && u.value.total == Latest(Totals(us)) && IsUnion(UsageExtensions(us), u.value.extensions))
  }

  lemma {:induction false} LatestIsLargest(values: seq<Option<nat>>)
    requires NeverFalls(values)
    ensures forall k :: 0 <= k < |values| && values[k].Some? ==>
              Latest(values).Some? && values[k].value <= Latest(values).value
    ensures Latest(values).Some? ==> exists k :: 0 <= k < |values| && values[k] == Latest(values)
  {
    if values != [] {
      var before := values[..|values| - 1];
      LatestIsLargest(before);
      if values[|values| - 1].None? && Latest(before).Some? {
        var k :| 0 <= k < |before| && before[k] == Latest(before);
        assert values[k] == Latest(values);
      }
      if values[|values| - 1].Some? { assert values[|values| - 1] == Latest(values); }
      forall k | 0 <= k < |values| && values[k].Some?
        ensures Latest(values).Some? && values[k].value <= Latest(values).value
      {
        if k < |values| - 1 { assert before[k] == values[k]; }
      }
    }
  }

  lemma CounterAdded(values: seq<Option<nat>>, next: Option<nat>)
    requires NeverFalls(values)
    ensures NeverFalls(values + [next]) <==> NotDecreased(Latest(values), next)
    ensures Latest(values + [next]) == Newer(Latest(values), next)
  {
    var all := values + [next];
    assert all[..|values|] == values;
    LatestIsLargest(values);
    if NotDecreased(Latest(values), next) {
      forall j, k | 0 <= j < k < |all| && all[j].Some? && all[k].Some? ensures all[j].value <= all[k].value {
        if k == |values| { assert values[j] == all[j]; }
      }
    } else {
      var k :| 0 <= k < |values| && values[k] == Latest(values);
      assert all[k] == values[k] && all[|values|] == next;
    }
  }

  lemma CounterBefore(values: seq<Option<nat>>, next: Option<nat>)
    requires NeverFalls(values + [next])
    ensures NeverFalls(values)
  {
    var all := values + [next];
    assert forall k :: 0 <= k < |values| ==> all[k] == values[k];
  }

  lemma UsageParts(us: seq<TokenUsage>, s: TokenUsage)
    ensures Inputs(us + [s]) == Inputs(us) + [s.input] && Outputs(us + [s]) == Outputs(us) + [s.output]
    ensures Totals(us + [s]) == Totals(us) + [s.total]
    ensures UsageExtensions(us + [s]) == UsageExtensions(us) + [s.extensions]
    ensures (us + [s])[..|us|] == us
  {
  }

  lemma UsageFitsBefore(us: seq<TokenUsage>, s: TokenUsage)
    requires UsageFits(us + [s])
    ensures UsageFits(us)
  {
    UsageParts(us, s);
    CounterBefore(Inputs(us), s.input);
    CounterBefore(Outputs(us), s.output);
    CounterBefore(Totals(us), s.total);
    PrefixCompatible(UsageExtensions(us), s.extensions);
    AddsUpMore(us, s);
  }

  lemma AddsUpMore(us: seq<TokenUsage>, s: TokenUsage)
    ensures AlwaysAddsUp(us + [s]) ==> AlwaysAddsUp(us)
    ensures us != [] ==> (AlwaysAddsUp(us + [s]) <==> AlwaysAddsUp(us) && AddsUp(us + [s]))
  {
    hide AddsUp;
    var all := us + [s];
    assert all[..|all|] == all;
    forall n | 0 <= n <= |us| ensures all[..n] == us[..n] {}
    if AlwaysAddsUp(us) && AddsUp(all) {
      forall n | 2 <= n <= |all| ensures AddsUp(all[..n]) {
        if n <= |us| { assert AddsUp(us[..n]); }
      }
    }
    if AlwaysAddsUp(all) {
      forall n | 2 <= n <= |us| ensures AddsUp(us[..n]) { assert AddsUp(all[..n]); }
      if us != [] { assert AddsUp(all[..|all|]); }
    }
  }

  /** One more snapshot: merged exactly when all of them fit. */
  lemma SnapshotAdded(us: seq<TokenUsage>, u: Option<TokenUsage>, s: TokenUsage)
    requires UsageFits(us) && UsageSays(us, u)
    ensures (u.Some? ==> Mergeable(u.value, s)) <==> UsageFits(us + [s])
    ensures (u.Some? ==> Mergeable(u.value, s)) ==>
              UsageSays(us + [s], Some(if u.Some? then MergedUsage(u.value, s) else s))
  {
    if u.None? {
      assert us + [s] == [s];
      FirstSnapshot(s);
    } else {
      LaterSnapshot(us, u.value, s);
    }
  }

  lemma FirstSnapshot(s: TokenUsage)
    ensures UsageFits([s]) && UsageSays([s], Some(s))
  {
    assert [s][..0] == [] && Inputs([s])[..0] == [] && Outputs([s])[..0] == [] && Totals([s])[..0] == [];
    assert UsageExtensions([s])[0] == s.extensions;
  }

  lemma LaterSnapshot(us: seq<TokenUsage>, u: TokenUsage, s: TokenUsage)
    requires UsageFits(us) && UsageSays(us, Some(u))
    ensures Mergeable(u, s) <==> UsageFits(us + [s])
    ensures Mergeable(u, s) ==> UsageSays(us + [s], Some(MergedUsage(u, s)))
  {
    UsageParts(us, s);
    CounterAdded(Inputs(us), s.input);
    CounterAdded(Outputs(us), s.output);
    CounterAdded(Totals(us), s.total);
    UnionGrows(UsageExtensions(us), u.extensions, s.extensions);
    MergesAddUp(us, u, s);
    AddsUpMore(us, s);
    hide IsUnion, AllCompatible, NeverFalls, Consistent, AddsUp, AlwaysAddsUp, Compatible, Latest, NotDecreased, Newer,
         Merged;
  }

  lemma MergesAddUp(us: seq<TokenUsage>, u: TokenUsage, s: TokenUsage)
    requires NeverFalls(Inputs(us)) && NeverFalls(Outputs(us)) && NeverFalls(Totals(us))
    requires u.input == Latest(Inputs(us)) && u.output == Latest(Outputs(us)) && u.total == Latest(Totals(us))
    ensures Consistent(MergedUsage(u, s)) <==> AddsUp(us + [s])
  {
    UsageParts(us, s);
    CounterAdded(Inputs(us), s.input);
    CounterAdded(Outputs(us), s.output);
    CounterAdded(Totals(us), s.total);
  }

  // ---- the whole stream ----

  ghost function JoinedTexts(events: seq<Event>): Text {
    if events == [] then []
    else
      var last := events[|events| - 1];
      JoinedTexts(events[..|events| - 1]) + if last.TextDelta? then last.delta else []
  }

  ghost predicate OneStart(events: seq<Event>) {
    forall j, k :: 0 <= j < k < |events| ==> !(events[j].ResponseStarted? && events[k].ResponseStarted?)
  }

  /** A call that can be handed out. */
  ghost predicate Completes(limits: Limits, fragments: seq<ToolCallDelta>) {
    && (exists k :: 0 <= k < |fragments| && fragments[k].id.Some?)
    && (exists k :: 0 <= k < |fragments| && fragments[k].name.Some?)
    && limits.parse(JoinedArguments(fragments)).Some?
  }

  /** Every call keeps within the limits and never contradicts itself. */
  ghost predicate CallsFit(limits: Limits, events: seq<Event>) {
    forall index :: FragmentsFit(limits, Fragments(events, index))
  }

  /** At an end marker every call is complete. */
  ghost predicate EndFits(limits: Limits, events: seq<Event>) {
    events != [] && events[|events| - 1].Finished? ==>
      forall index :: Fragments(events, index) != [] ==> Completes(limits, Fragments(events, index))
  }

  /** Nothing comes after an end marker. */
  ghost predicate EndsOnly(events: seq<Event>) {
    Endless(if events == [] then [] else events[..|events| - 1])
  }

  /** The streams the collector accepts: nothing after an end marker, one response
      start, text, calls and usage within their limits and without contradiction,
      and every call complete at the end marker. */
  ghost predicate Fits(limits: Limits, events: seq<Event>) {
    && EndsOnly(events) && OneStart(events) && |JoinedTexts(events)| <= limits.maxText
    && CallsFit(limits, events) && UsageFits(Snapshots(events)) && EndFits(limits, events)
  }

  ghost predicate StartSays(events: seq<Event>, started: Option<Started>) {
    forall s :: started == Some(s) <==> ResponseStarted(s) in events
  }

  ghost predicate ReasonSays(events: seq<Event>, finishReason: Option<FinishReason>) {
    forall reason :: finishReason == Some(reason) <==> Finished(reason) in events
  }

  /** There is a call for each index that occurs, put together from its fragments. */
  ghost predicate CallsSay(events: seq<Event>, toolCalls: map<nat, Pending>) {
    && (forall index :: index in toolCalls <==> Fragments(events, index) != [])
    && (forall index :: index in toolCalls ==> PutTogether(Fragments(events, index), toolCalls[index]))
  }

  /** What has been collected of the stream. */
  ghost predicate CollectedSays(events: seq<Event>, c: Collected) {
    && StartSays(events, c.started) && c.text == JoinedTexts(events) && CallsSay(events, c.toolCalls)
    && UsageSays(Snapshots(events), c.usage) && ReasonSays(events, c.finishReason)
  }

  // ---- one more event ----

  lemma TextAdded(front: seq<Event>, e: Event)
    ensures JoinedTexts(front + [e]) == JoinedTexts(front) + if e.TextDelta? then e.delta else []
    ensures !e.TextDelta? ==> JoinedTexts(front + [e]) == JoinedTexts(front)
  {
    assert JoinedTexts(front) + [] == JoinedTexts(front);
    assert (front + [e])[..|front|] == front;
  }

  lemma UsageAdded(front: seq<Event>, e: Event)
    ensures Snapshots(front + [e]) == Snapshots(front) + if e.Usage? then [e.usage] else []
    ensures !e.Usage? ==> Snapshots(front + [e]) == Snapshots(front)
  {
    assert Snapshots(front) + [] == Snapshots(front);
    assert (front + [e])[..|front|] == front;
  }

  lemma FragmentsGrow(front: seq<Event>, e: Event, index: nat)
    ensures Fragments(front + [e], index)
            == Fragments(front, index) + if e.ToolDelta? && e.tool.index == index then [e.tool] else []
    ensures !(e.ToolDelta? && e.tool.index == index) ==> Fragments(front + [e], index) == Fragments(front, index)
  {
    assert Fragments(front, index) + [] == Fragments(front, index);
    assert (front + [e])[..|front|] == front;
  }

  lemma OtherEventKeepsCalls(limits: Limits, front: seq<Event>, e: Event)
    requires !e.ToolDelta?
    ensures CallsFit(limits, front + [e]) <==> CallsFit(limits, front)
    ensures forall toolCalls :: CallsSay(front + [e], toolCalls) <==> CallsSay(front, toolCalls)
  {
    hide FragmentsFit, PutTogether;
    forall index ensures Fragments(front + [e], index) == Fragments(front, index) { FragmentsGrow(front, e, index); }
    if CallsFit(limits, front + [e]) {
      forall index ensures FragmentsFit(limits, Fragments(front, index)) {
        assert FragmentsFit(limits, Fragments(front + [e], index));
      }
    }
  }

  lemma StartsAdded(front: seq<Event>, e: Event, started: Option<Started>)
    requires StartSays(front, started) && OneStart(front)
    ensures OneStart(front + [e]) <==> (e.ResponseStarted? ==> started.None?)
    ensures (e.ResponseStarted? ==> started.None?) ==>
              StartSays(front + [e], if e.ResponseStarted? then Some(e.started) else started)
  {
    var all := front + [e];
    assert all[|front|] == e;
    if e.ResponseStarted? && started.Some? {
      assert ResponseStarted(started.value) in front;
      var k :| 0 <= k < |front| && front[k] == ResponseStarted(started.value);
      assert all[k].ResponseStarted?;
    } else {
      if e.ResponseStarted? { NoStartYet(front); }
      assert forall k :: 0 <= k < |front| ==> all[k] == front[k];
    }
  }

  lemma NoStartYet(front: seq<Event>)
    requires StartSays(front, None)
    ensures forall k :: 0 <= k < |front| ==> !front[k].ResponseStarted?
  {
    forall k | 0 <= k < |front| ensures !front[k].ResponseStarted? {
      assert front[k] in front;
      assert forall s :: ResponseStarted(s) !in front;
    }
  }

  lemma ReasonAdded(front: seq<Event>, e: Event)
    requires Endless(front)
    ensures ReasonSays(front + [e], if e.Finished? then Some(e.reason) else None)
    ensures ReasonSays(front, None)
  {
    assert forall x :: x in front ==> !x.Finished?;
  }

  lemma ReasonIsOne(events: seq<Event>, a: Option<FinishReason>, b: Option<FinishReason>)
    requires ReasonSays(events, a) && ReasonSays(events, b)
    ensures a == b
  {
    if a.Some? { assert Finished(a.value) in events; }
    if b.Some? { assert Finished(b.value) in events; }
  }

  lemma EndsAdded(limits: Limits, front: seq<Event>, e: Event)
    ensures EndsOnly(front + [e]) <==> Endless(front)
    ensures !e.Finished? ==> EndFits(limits, front + [e])
    ensures Endless(front) ==> EndsOnly(front) && EndFits(limits, front)
  {
    assert (front + [e])[..|front|] == front && (front + [e])[|front|] == e;
  }

  lemma ToolAdded(limits: Limits, front: seq<Event>, e: Event, toolCalls: map<nat, Pending>)
    requires e.ToolDelta? && CallsFit(limits, front) && CallsSay(front, toolCalls)
    ensures CallAccepts(limits, CallOf(toolCalls, e.tool.index), e.tool) <==> CallsFit(limits, front + [e])
    ensures CallAccepts(limits, CallOf(toolCalls, e.tool.index), e.tool) ==>
              CallsSay(front + [e],
                       toolCalls[e.tool.index := CallAfter(CallOf(toolCalls, e.tool.index), e.tool)])
  {
    hide FragmentsFit, PutTogether, CallAccepts, CallAfter, CallsFit, CallsSay;
    var d, fragments := e.tool, Fragments(front, e.tool.index);
    FragmentsAreOfIndex(front, d.index);
    CallIsPutTogether(limits, front, toolCalls, d.index);
    FragmentAdded(limits, fragments, CallOf(toolCalls, d.index), d);
    FitsWithOneMore(limits, front, e);
    if CallAccepts(limits, CallOf(toolCalls, d.index), d) {
      SaysWithOneMore(front, e, toolCalls, CallAfter(CallOf(toolCalls, d.index), d));
    }
  }

  lemma CallIsPutTogether(limits: Limits, front: seq<Event>, toolCalls: map<nat, Pending>, index: nat)
    requires CallsFit(limits, front) && CallsSay(front, toolCalls)
    ensures FragmentsFit(limits, Fragments(front, index))
    ensures PutTogether(Fragments(front, index), CallOf(toolCalls, index))
  {
    hide FragmentsFit, PutTogether;
    if Fragments(front, index) == [] { NothingPutTogether(); }
  }

  /** Only the fragments of its own index change. */
  lemma FragmentsWithOneMore(front: seq<Event>, e: Event)
    requires e.ToolDelta?
    ensures forall index ::
              Fragments(front + [e], index)
              == if index == e.tool.index then Fragments(front, index) + [e.tool] else Fragments(front, index)
  {
    hide Fragments;
    forall index
      ensures Fragments(front + [e], index)
              == if index == e.tool.index then Fragments(front, index) + [e.tool] else Fragments(front, index)
    {
      FragmentsGrow(front, e, index);
      assert Fragments(front, index) + [] == Fragments(front, index);
    }
  }

  lemma FitsWithOneMore(limits: Limits, front: seq<Event>, e: Event)
    requires e.ToolDelta? && CallsFit(limits, front)
    ensures CallsFit(limits, front + [e]) <==> FragmentsFit(limits, Fragments(front, e.tool.index) + [e.tool])
  {
    hide FragmentsFit, Fragments;
    FragmentsWithOneMore(front, e);
    if CallsFit(limits, front + [e]) { assert FragmentsFit(limits, Fragments(front + [e], e.tool.index)); }
  }

  lemma SaysWithOneMore(front: seq<Event>, e: Event, toolCalls: map<nat, Pending>, call: Pending)
    requires e.ToolDelta? && CallsSay(front, toolCalls)
    requires PutTogether(Fragments(front, e.tool.index) + [e.tool], call)
    ensures CallsSay(front + [e], toolCalls[e.tool.index := call])
  {
    hide PutTogether, Fragments;
    FragmentsWithOneMore(front, e);
  }

  lemma NothingPutTogether()
    ensures PutTogether([], NO_CALL)
  {
  }

  lemma EndAdded(limits: Limits, front: seq<Event>, e: Event, toolCalls: map<nat, Pending>)
    requires e.Finished? && CallsSay(front, toolCalls)
    ensures AllComplete(limits, toolCalls) <==> EndFits(limits, front + [e])
  {
    hide PutTogether, Completes, CallComplete;
    assert (front + [e])[|front|] == e;
    forall index ensures Fragments(front + [e], index) == Fragments(front, index) { FragmentsGrow(front, e, index); }
    forall index | index in toolCalls
      ensures CallComplete(limits, toolCalls[index]) <==> Completes(limits, Fragments(front, index))
    {
      CallCompletes(limits, Fragments(front, index), toolCalls[index]);
    }
    if EndFits(limits, front + [e]) {
      forall index | index in toolCalls ensures Completes(limits, Fragments(front, index)) {
        assert Fragments(front + [e], index) != [];
      }
    }
  }

  lemma CallCompletes(limits: Limits, fragments: seq<ToolCallDelta>, call: Pending)
    requires PutTogether(fragments, call)
    ensures CallComplete(limits, call) <==> Completes(limits, fragments)
  {
    hide IsUnion;
    if call.id.Some? { assert call.id == Some(call.id.value); }
    if call.name.Some? { assert call.name == Some(call.name.value); }
    if k :| 0 <= k < |fragments| && fragments[k].id.Some? { assert fragments[k].id == Some(fragments[k].id.value); }
    if k :| 0 <= k < |fragments| && fragments[k].name.Some? {
      assert fragments[k].name == Some(fragments[k].name.value);
    }
  }

  // ---- every stream ----

  /** A stream that fits fits without its last event. */
  lemma FitsBefore(limits: Limits, front: seq<Event>, e: Event)
    requires Fits(limits, front + [e])
    ensures Fits(limits, front) && Endless(front)
  {
    hide FragmentsFit, UsageFits, EndsOnly, EndFits;
    EndsAdded(limits, front, e);
    TextAdded(front, e);
    UsageAdded(front, e);
    if e.Usage? { UsageFitsBefore(Snapshots(front), e.usage); }
    assert forall k :: 0 <= k < |front| ==> (front + [e])[k] == front[k];
    forall index ensures FragmentsFit(limits, Fragments(front, index)) {
      FragmentsGrow(front, e, index);
      assert FragmentsFit(limits, Fragments(front + [e], index));
      if e.ToolDelta? && e.tool.index == index {
        FragmentsFitBefore(limits, Fragments(front, index), e.tool);
      } else {
        assert Fragments(front + [e], index) == Fragments(front, index);
      }
    }
  }

  lemma NothingFits(limits: Limits)
    ensures Fits(limits, []) && CollectedSays([], EMPTY)
  {
  }

  /** The collector accepts exactly the streams that fit, and what it has collected
      is what they say. */
  lemma {:induction false} AcceptedMeans(limits: Limits, events: seq<Event>)
    ensures AllAccepted(limits, events) <==> Fits(limits, events)
    ensures AllAccepted(limits, events) ==> CollectedSays(events, PushedAll(limits, events))
  {
    hide Fits, CollectedSays, Accepts, Applied;
    if events == [] {
      NothingFits(limits);
    } else {
      var front, e := events[..|events| - 1], events[|events| - 1];
      assert events == front + [e];
      AcceptedMeans(limits, front);
      if Fits(limits, events) { FitsBefore(limits, front, e); }
      if AllAccepted(limits, front) {
        CollectedEndsLast(limits, front);
        if Endless(front) { NextContinues(limits, front, PushedAll(limits, front), e); }
      }
    }
  }

  /** One event after a stream that fits: accepted exactly when the longer stream
      fits, and then collected. */
  lemma NextContinues(limits: Limits, front: seq<Event>, c: Collected, e: Event)
    requires Fits(limits, front) && Endless(front) && CollectedSays(front, c)
    ensures Accepts(limits, c, e) <==> Fits(limits, front + [e])
    ensures Accepts(limits, c, e) ==> CollectedSays(front + [e], Applied(c, e))
  {
    hide CallsFit, UsageFits, EndsOnly, EndFits, OneStart, StartSays, ReasonSays, CallsSay, UsageSays, AllComplete,
         Mergeable, MergedUsage, CallAccepts, CallAfter, Endless;
    EndsAdded(limits, front, e);
    TextAdded(front, e);
    UsageAdded(front, e);
    StartsAdded(front, e, c.started);
    ReasonAdded(front, e);
    ReasonIsOne(front, c.finishReason, None);
    match e
    case ResponseStarted(_) => OtherEventKeepsCalls(limits, front, e);
    case TextDelta(_) => OtherEventKeepsCalls(limits, front, e);
    case ToolDelta(_) => ToolAdded(limits, front, e, c.toolCalls);
    case Usage(_) =>
      OtherEventKeepsCalls(limits, front, e);
      SnapshotAdded(Snapshots(front), c.usage, e.usage);
    case Finished(_) =>
      OtherEventKeepsCalls(limits, front, e);
      EndAdded(limits, front, e, c.toolCalls);
  }

  // ---- the response ----

  /** The call handed out for these fragments. */
  ghost predicate HandsOut(limits: Limits, fragments: seq<ToolCallDelta>, call: ToolCall) {
    && (exists k :: 0 <= k < |fragments| && fragments[k].id == Some(call.id))
    && (exists k :: 0 <= k < |fragments| && fragments[k].name == Some(call.name))
    && limits.parse(JoinedArguments(fragments)) == Some(call.arguments)
    && IsUnion(ExtensionsOf(fragments), call.extensions)
  }

  /** One call for each index that occurs below the bound, in ascending order. */
  ghost predicate CallsInOrder(limits: Limits, events: seq<Event>, calls: seq<ToolCall>, indices: seq<nat>,
                               bound: nat)
  {
    && StrictlyAscending(indices) && |calls| == |indices|
    && (forall index: nat :: index in indices <==> index < bound && Fragments(events, index) != [])
    && (forall k :: 0 <= k < |calls| ==> HandsOut(limits, Fragments(events, indices[k]), calls[k]))
  }

  /** The response says what the stream said. */
  ghost predicate ResponseSays(limits: Limits, events: seq<Event>, response: ChatResponse) {
    && response.text == JoinedTexts(events) && Finished(response.reason) in events
    && UsageSays(Snapshots(events), response.usage) && StartSays(events, response.started)
    && exists indices :: CallsAre(limits, events, response.calls, indices)
  }

  /** One call for each index that occurs, in ascending order. */
  ghost predicate CallsAre(limits: Limits, events: seq<Event>, calls: seq<ToolCall>, indices: seq<nat>) {
    && StrictlyAscending(indices) && |calls| == |indices|
    && (forall index: nat :: index in indices <==> Fragments(events, index) != [])
    && (forall k :: 0 <= k < |calls| ==> HandsOut(limits, Fragments(events, indices[k]), calls[k]))
  }

  lemma BuiltHandsOut(limits: Limits, fragments: seq<ToolCallDelta>, call: Pending)
    requires PutTogether(fragments, call) && CallComplete(limits, call)
    ensures HandsOut(limits, fragments, Built(limits, call))
  {
    hide IsUnion;
    assert call.id == Some(call.id.value) && call.name == Some(call.name.value);
  }

  lemma {:induction false} CallsBelowMean(limits: Limits, events: seq<Event>, toolCalls: map<nat, Pending>, bound: nat)
    returns (indices: seq<nat>)
    requires CallsSay(events, toolCalls) && AllComplete(limits, toolCalls)
    ensures CallsInOrder(limits, events, CallsBelow(limits, toolCalls, bound), indices, bound)
  {
    hide HandsOut, PutTogether, CallComplete, CallsInOrder;
    if bound == 0 {
      indices := [];
      NoCallsInOrder(limits, events);
    } else {
      var before := CallsBelowMean(limits, events, toolCalls, bound - 1);
      var calls := CallsBelow(limits, toolCalls, bound - 1);
      if bound - 1 in toolCalls {
        indices := before + [bound - 1];
        BuiltHandsOut(limits, Fragments(events, bound - 1), toolCalls[bound - 1]);
        OneMoreCall(limits, events, calls, before, bound - 1, Built(limits, toolCalls[bound - 1]));
      } else {
        indices := before;
        NoMoreCall(limits, events, calls, before, bound - 1);
        assert calls + [] == calls;
      }
    }
  }

  lemma NoCallsInOrder(limits: Limits, events: seq<Event>)
    ensures CallsInOrder(limits, events, [], [], 0)
  {
  }

  lemma OneMoreCall(limits: Limits, events: seq<Event>, calls: seq<ToolCall>, indices: seq<nat>, bound: nat,
                    call: ToolCall)
    requires CallsInOrder(limits, events, calls, indices, bound)
    requires Fragments(events, bound) != [] && HandsOut(limits, Fragments(events, bound), call)
    ensures CallsInOrder(limits, events, calls + [call], indices + [bound], bound + 1)
  {
    hide HandsOut, Fragments;
    forall k | 0 <= k < |indices| ensures indices[k] < bound { assert indices[k] in indices; }
  }

  lemma NoMoreCall(limits: Limits, events: seq<Event>, calls: seq<ToolCall>, indices: seq<nat>, bound: nat)
    requires CallsInOrder(limits, events, calls, indices, bound) && Fragments(events, bound) == []
    ensures CallsInOrder(limits, events, calls, indices, bound + 1)
  {
    hide HandsOut, Fragments;
  }

  lemma FitsEnds(limits: Limits, events: seq<Event>)
    requires AllAccepted(limits, events)
    ensures PushedAll(limits, events).phase.Done? <==> events != [] && events[|events| - 1].Finished?
  {
    CollectedEndsLast(limits, events);
    hide PushedAll, AllAccepted;
    if events != [] && events[|events| - 1].Finished? {
      AcceptedMeans(limits, events);
      assert EndsOnly(events);
    }
  }

  /** The response of a collected stream. */
  lemma ResponseMeans(limits: Limits, events: seq<Event>)
    requires AllAccepted(limits, events) && PushedAll(limits, events).phase.Done?
    requires PushedAll(limits, events).finishReason.Some? && AllComplete(limits, PushedAll(limits, events).toolCalls)
    ensures ResponseSays(limits, events, ResponseOf(limits, PushedAll(limits, events)))
  {
    hide AllComplete, PutTogether, HandsOut, Fits, CallsSay, UsageSays, StartSays;
    AcceptedMeans(limits, events);
    var c := PushedAll(limits, events);
    AcceptedWithinIndex(limits, events);
    hide PushedAll, AllAccepted;
    var indices := CallsBelowMean(limits, events, c.toolCalls, limits.maxIndex + 1);
    assert CallsAre(limits, events, CallsBelow(limits, c.toolCalls, limits.maxIndex + 1), indices);
    assert c.finishReason == Some(c.finishReason.value);
  }

  lemma AcceptedWithinIndex(limits: Limits, events: seq<Event>)
    requires AllAccepted(limits, events)
    ensures forall index: nat :: Fragments(events, index) != [] ==> index < limits.maxIndex + 1
  {
    AcceptedMeans(limits, events);
    hide AllAccepted, OneId, OneName, AllCompatible, IsUnion;
    forall index: nat | Fragments(events, index) != [] ensures index < limits.maxIndex + 1 {
      assert FragmentsFit(limits, Fragments(events, index));
      FragmentsAreOfIndex(events, index);
    }
  }

  /** `collect_chat_stream` over a stream without transport errors. */
  method CollectChatStream(limits: Limits, events: seq<Event>) returns (r: Result<ChatResponse, ProtocolError>)
    ensures r.Ok? <==> AllAccepted(limits, events) && PushedAll(limits, events).phase.Done?
    ensures r.Ok? ==>
              && PushedAll(limits, events).finishReason.Some?
              && AllComplete(limits, PushedAll(limits, events).toolCalls)
              && r.value == ResponseOf(limits, PushedAll(limits, events))
    ensures r.Ok? <==> Fits(limits, events) && events != [] && events[|events| - 1].Finished?
    ensures r.Ok? ==> ResponseSays(limits, events, r.value)
  {
    AcceptedMeans(limits, events);
    hide Accepts, Applied, Fits, ResponseSays, CollectedSays, AllComplete;
    var collector := new ChatStreamCollector(limits);
    for i := 0 to |events|
      invariant collector.Valid() && collector.limits == limits
      invariant collector.State() == PushedAll(limits, events[..i]) && AllAccepted(limits, events[..i])
    {
      assert events[..i + 1][..i] == events[..i];
      var error := collector.Push(events[i]);
      if error.Some? {
        RejectionIsFinal(limits, events, i + 1);
        return Err(error.value);
      }
    }
    assert events[..|events|] == events;
    r := collector.Finish();
    if AllAccepted(limits, events) { FitsEnds(limits, events); }
    if r.Ok? { ResponseMeans(limits, events); }
  }
}
