/** Provider extension data and cumulative token usage
    (crates/group-agent-model/src/extensions.rs:75-120;
    crates/group-agent-model/src/response.rs:84-239, 414-433). */
module UsageMerging {
  import opened Base

  /** A trimmed, non-empty extension key, and a JSON value. */
  type Key = string
  type Json(==, !new)
  type Extensions = map<Key, Json>

  datatype MergeConflict = ConflictingValue(key: Key)

  predicate Clashes(a: Extensions, b: Extensions, key: Key) { key in a && key in b && a[key] != b[key] }

  ghost predicate Compatible(a: Extensions, b: Extensions) { forall key :: !Clashes(a, b, key) }

  /** Existing values win; they equal the new ones whenever a merge is allowed. */
  function Merged(a: Extensions, b: Extensions): Extensions { b + a }

  /** How many of these keys a does not have yet. */
  ghost function NewKeys(a: Extensions, keys: set<Key>): nat { |keys - a.Keys| }

  ghost predicate NoneClash(a: Extensions, b: Extensions, keys: set<Key>) {
    forall key :: key in keys ==> !Clashes(a, b, key)
  }

  /** Counts the keys a merge would add, or finds the first conflicting one, going
      through the keys in lexical order. */
  method ValidateIdempotentMerge(a: Extensions, b: Extensions) returns (r: Result<nat, MergeConflict>)
    ensures r.Ok? <==> Compatible(a, b)
    ensures r.Ok? ==> r.value == NewKeys(a, b.Keys)
    ensures r.Err? ==> Clashes(a, b, r.error.key)
                       && forall key :: Clashes(a, b, key) ==> TextLe(r.error.key, key)
  {
    hide NewKeys, NoneClash, Compatible;
    var additional, rest := 0, b.Keys;
    NothingSeen(a, b);
    while rest != {}
      invariant rest <= b.Keys
      invariant NoneClash(a, b, b.Keys - rest)
      invariant additional == NewKeys(a, b.Keys - rest)
    {
      ghost var least := LeastText(rest);
      var key :| key in rest && forall other :: other in rest ==> TextLe(key, other);
      OneMoreKey(a, b, b.Keys - rest, key);
      assert b.Keys - (rest - {key}) == b.Keys - rest + {key};
      FirstClash(a, b, rest, key);
      if key in a && a[key] != b[key] { return Err(ConflictingValue(key)); }
      if key !in a { additional := additional + 1; }
      rest := rest - {key};
    }
    assert b.Keys - rest == b.Keys;
    AllSeen(a, b);
    r := Ok(additional);
  }

  lemma FirstClash(a: Extensions, b: Extensions, rest: set<Key>, key: Key)
    requires NoneClash(a, b, b.Keys - rest) && forall other :: other in rest ==> TextLe(key, other)
    ensures forall other :: Clashes(a, b, other) ==> TextLe(key, other)
  {
  }

  lemma NothingSeen(a: Extensions, b: Extensions)
    ensures b.Keys - b.Keys == {} && NoneClash(a, b, {}) && NewKeys(a, {}) == 0
  {
  }

  lemma AllSeen(a: Extensions, b: Extensions)
    requires NoneClash(a, b, b.Keys)
    ensures Compatible(a, b)
  {
  }

  lemma OneMoreKey(a: Extensions, b: Extensions, seen: set<Key>, key: Key)
    requires key !in seen && NoneClash(a, b, seen)
    ensures NewKeys(a, seen + {key}) == NewKeys(a, seen) + if key in a then 0 else 1
    ensures NoneClash(a, b, seen + {key}) <==> !Clashes(a, b, key)
    ensures Clashes(a, b, key) ==> !Compatible(a, b)
  {
    if key in a { assert seen + {key} - a.Keys == seen - a.Keys; }
    else { assert seen + {key} - a.Keys == (seen - a.Keys) + {key}; }
  }

  /** What validation counts is what the merge adds. */
  lemma MergedSize(a: Extensions, b: Extensions)
    ensures |Merged(a, b)| == |a| + NewKeys(a, b.Keys)
  {
    assert Merged(a, b).Keys == a.Keys + (b.Keys - a.Keys);
    assert |Merged(a, b)| == |Merged(a, b).Keys| && |a| == |a.Keys|;
  }

  /** Adds what is new. */
  method CommitIdempotentMerge(a: Extensions, b: Extensions) returns (merged: Extensions)
    ensures merged == Merged(a, b)
  {
    merged := a;
    var rest := b.Keys;
    while rest != {}
      invariant rest <= b.Keys
      invariant merged == (map key | key in b.Keys - rest :: b[key]) + a
    {
      var key :| key in rest;
      if key !in merged { merged := merged[key := b[key]]; }
      rest := rest - {key};
    }
    assert (map key | key in b.Keys :: b[key]) == b;
  }

  /** A merge keeps every value of both sides, adds no other key, and merging
      either side again changes nothing. */
  lemma MergeIsIdempotent(a: Extensions, b: Extensions)
    requires Compatible(a, b)
    ensures forall key :: key in Merged(a, b) <==> key in a || key in b
    ensures forall key :: key in a ==> Merged(a, b)[key] == a[key]
    ensures forall key :: key in b ==> Merged(a, b)[key] == b[key]
    ensures Compatible(Merged(a, b), b) && Merged(Merged(a, b), b) == Merged(a, b)
    ensures Merged(a, b) == Merged(b, a)
  {
    forall key | key in b ensures Merged(a, b)[key] == b[key] { assert !Clashes(a, b, key); }
    forall key | key in a && key in b ensures a[key] == b[key] { assert !Clashes(a, b, key); }
    assert Merged(a, b) == Merged(b, a);
  }

  // ---- token usage ----

  const U64_MAX: nat := 0xFFFF_FFFF_FFFF_FFFF

  datatype TokenUsage = TokenUsage(input: Option<nat>, output: Option<nat>, total: Option<nat>, extensions: Extensions)

  datatype Counter = InputTokens | OutputTokens | TotalTokens

  datatype UsageError =
    | TotalOverflow(input: nat, output: nat)
    | InconsistentTotal(total: nat)
    | CounterDecreased(counter: Counter, previous: nat, current: nat)
    | ExtensionConflict(conflict: MergeConflict)

  function CheckedComputedTotal(u: TokenUsage): Result<Option<nat>, UsageError> {
    if u.input.Some? && u.output.Some? then
      if u.input.value + u.output.value > U64_MAX then Err(TotalOverflow(u.input.value, u.output.value))
      else Ok(Some(u.input.value + u.output.value))
    else Ok(None)
  }

  function EffectiveTotal(u: TokenUsage): Result<Option<nat>, UsageError> {
    if u.total.Some? then Ok(u.total) else CheckedComputedTotal(u)
  }

  function Validate(u: TokenUsage): Option<UsageError> {
    match CheckedComputedTotal(u)
    case Err(error) => Some(error)
    case Ok(computed) =>
      if u.total.None? then None
      else
        var lowerBound := if computed.Some? then computed.value
                          else if u.input.Some? then u.input.value
                          else if u.output.Some? then u.output.value else 0;
        if u.total.value < lowerBound then Some(InconsistentTotal(u.total.value))
        else if u.input.Some? && u.total.value < u.input.value then Some(InconsistentTotal(u.total.value))
        else if u.output.Some? && u.total.value < u.output.value then Some(InconsistentTotal(u.total.value))
        else None
  }

  function OrZero(counter: Option<nat>): nat { if counter.Some? then counter.value else 0 }

  /** The known components fit in 64 bits together, and an explicit total covers
      them. */
  predicate Consistent(u: TokenUsage) {
    && (u.input.Some? && u.output.Some? ==> u.input.value + u.output.value <= 0xFFFF_FFFF_FFFF_FFFF)
    && (u.total.Some? ==> OrZero(u.input) + OrZero(u.output) <= u.total.value)
  }

  lemma ValidateIsConsistent(u: TokenUsage)
    ensures Validate(u).None? <==> Consistent(u)
  {
  }

  function MergeCounter(counter: Counter, previous: Option<nat>, current: Option<nat>)
    : Result<Option<nat>, UsageError>
  {
    if previous.Some? && current.Some? && current.value < previous.value then
      Err(CounterDecreased(counter, previous.value, current.value))
    else if current.Some? then Ok(current)
    else Ok(previous)
  }

  function Newer(previous: Option<nat>, current: Option<nat>): Option<nat> {
    if current.Some? then current else previous
  }

  ghost predicate NotDecreased(previous: Option<nat>, current: Option<nat>) {
    previous.Some? && current.Some? ==> previous.value <= current.value
  }

  function MergedUsage(u: TokenUsage, s: TokenUsage): TokenUsage {
    TokenUsage(Newer(u.input, s.input), Newer(u.output, s.output), Newer(u.total, s.total),
               Merged(u.extensions, s.extensions))
  }

  /** When a cumulative snapshot may follow another. */
  ghost predicate Mergeable(u: TokenUsage, s: TokenUsage) {
    && NotDecreased(u.input, s.input) && NotDecreased(u.output, s.output) && NotDecreased(u.total, s.total)
    && Consistent(MergedUsage(u, s)) && Compatible(u.extensions, s.extensions)
  }

  /** A reported counter replaces the known one. */
  predicate Replaces(known: Option<nat>, reported: Option<nat>, result: Option<nat>) {
    if reported.Some? then result == reported else result == known
  }

  /** The counter of this kind. */
  function CounterOf(u: TokenUsage, counter: Counter): Option<nat> {
    match counter
    case InputTokens => u.input
    case OutputTokens => u.output
    case TotalTokens => u.total
  }

  /** Why a snapshot is refused. */
  ghost predicate UsageRefused(u: TokenUsage, s: TokenUsage, error: UsageError) {
    match error
    case CounterDecreased(counter, previous, current) =>
      CounterOf(u, counter) == Some(previous) && CounterOf(s, counter) == Some(current) && current < previous
    case TotalOverflow(input, output) =>
      && Replaces(u.input, s.input, Some(input)) && Replaces(u.output, s.output, Some(output))
      && input + output > 0xFFFF_FFFF_FFFF_FFFF
    case InconsistentTotal(total) =>
      Replaces(u.total, s.total, Some(total)) && !Consistent(MergedUsage(u, s))
    case ExtensionConflict(conflict) =>
      && Clashes(u.extensions, s.extensions, conflict.key)
      && forall key :: Clashes(u.extensions, s.extensions, key) ==> TextLe(conflict.key, key)
  }

  /** Validates every counter and key before any of them is touched. */
  method MergeSnapshot(u: TokenUsage, s: TokenUsage) returns (merged: TokenUsage, error: Option<UsageError>)
    ensures error.None? <==> Mergeable(u, s)
    ensures merged == if error.None? then MergedUsage(u, s) else u
    ensures error.None? ==>
              && Replaces(u.input, s.input, merged.input) && Replaces(u.output, s.output, merged.output)
              && Replaces(u.total, s.total, merged.total)
              && (forall key :: key in merged.extensions <==> key in u.extensions || key in s.extensions)
              && (forall key :: key in u.extensions ==> merged.extensions[key] == u.extensions[key])
              && (forall key :: key in s.extensions ==> merged.extensions[key] == s.extensions[key])
    ensures error.Some? ==> UsageRefused(u, s, error.value)
  {
    hide Merged, Compatible, Consistent, Clashes;
    merged := u;
    var input := MergeCounter(InputTokens, u.input, s.input);
    if input.Err? { return merged, Some(input.error); }
    var output := MergeCounter(OutputTokens, u.output, s.output);
    if output.Err? { return merged, Some(output.error); }
    var total := MergeCounter(TotalTokens, u.total, s.total);
    if total.Err? { return merged, Some(total.error); }
    var candidate := TokenUsage(input.value, output.value, total.value, map[]);
    CandidateRefused(u, s, candidate);
    error := Validate(candidate);
    if error.Some? { return; }
    var added := ValidateIdempotentMerge(u.extensions, s.extensions);
    if added.Err? { return merged, Some(ExtensionConflict(added.error)); }
    var extensions := CommitIdempotentMerge(u.extensions, s.extensions);
    MergedKeys(u.extensions, s.extensions);
    merged := TokenUsage(input.value, output.value, total.value, extensions);
  }

  /** The merged counters are refused exactly when they do not add up. */
  lemma CandidateRefused(u: TokenUsage, s: TokenUsage, candidate: TokenUsage)
    requires candidate == MergedUsage(u, s).(extensions := map[])
    ensures Validate(candidate).None? <==> Consistent(MergedUsage(u, s))
    ensures Validate(candidate).Some? ==> UsageRefused(u, s, Validate(candidate).value)
  {
    ValidateIsConsistent(candidate);
  }

  lemma MergedKeys(a: Extensions, b: Extensions)
    requires Compatible(a, b)
    ensures forall key :: key in Merged(a, b) <==> key in a || key in b
    ensures forall key :: key in a ==> Merged(a, b)[key] == a[key]
    ensures forall key :: key in b ==> Merged(a, b)[key] == b[key]
  {
    MergeIsIdempotent(a, b);
  }

  /** The effective total is the explicit one, or else the sum when both parts are
      known; it covers the known parts. */
  ghost predicate TotalIs(u: TokenUsage, total: Option<nat>) {
    && (u.total.Some? ==> total == u.total)
    && (u.total.None? ==> (total.Some? <==> u.input.Some? && u.output.Some?))
    && (u.total.None? && total.Some? ==> total.value == u.input.value + u.output.value)
    && (total.Some? ==> OrZero(u.input) + OrZero(u.output) <= total.value)
  }

  /** A consistent usage has an effective total, a merge never lowers it, and
      repeating the last snapshot changes nothing. */
  lemma MergedTotalsGrow(u: TokenUsage, s: TokenUsage)
    requires Consistent(u) && Mergeable(u, s)
    ensures var m := MergedUsage(u, s);
            && EffectiveTotal(u).Ok? && EffectiveTotal(m).Ok?
            && TotalIs(u, EffectiveTotal(u).value) && TotalIs(m, EffectiveTotal(m).value)
            && (EffectiveTotal(u).value.Some? ==>
                  EffectiveTotal(m).value.Some? && EffectiveTotal(u).value.value <= EffectiveTotal(m).value.value)
            && Mergeable(m, s) && MergedUsage(m, s) == m
  {
    MergeIsIdempotent(u.extensions, s.extensions);
  }
}
