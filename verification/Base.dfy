/** Failure-carrying results and the ordered index lists the compiler and the
    runtime share. */
module Base {

  datatype Option<+T> = None | Some(value: T)

  datatype Result<+T, +E> = Ok(value: T) | Err(error: E)

  // ---- strictly ascending index lists ----

  ghost predicate StrictlyAscending(s: seq<nat>) {
    forall i, j :: 0 <= i < j < |s| ==> s[i] < s[j]
  }

  /** Puts x in its place in an ascending list; an x already there is dropped. */
  function InsertIndex(x: nat, s: seq<nat>): seq<nat> {
    if s == [] then [x]
    else if x < s[0] then [x] + s
    else if x == s[0] then s
    else [s[0]] + InsertIndex(x, s[1..])
  }

  /** `sort_unstable_by_key` on the index followed by `dedup`. */
  function SortDedup(s: seq<nat>): seq<nat> {
    if s == [] then [] else InsertIndex(s[0], SortDedup(s[1..]))
  }

  lemma {:induction false} InsertIndexKeepsOrder(x: nat, s: seq<nat>)
    requires StrictlyAscending(s)
    ensures StrictlyAscending(InsertIndex(x, s))
    ensures forall y :: y in InsertIndex(x, s) <==> y == x || y in s
  {
    if s == [] || x <= s[0] {
    } else {
      var rest := InsertIndex(x, s[1..]);
      InsertIndexKeepsOrder(x, s[1..]);
      assert s == [s[0]] + s[1..];
      forall j | 0 <= j < |rest| ensures s[0] < rest[j] {
        assert rest[j] in rest;
      }
    }
  }

  lemma {:induction false} SortDedupSorts(s: seq<nat>)
    ensures StrictlyAscending(SortDedup(s))
    ensures forall y :: y in SortDedup(s) <==> y in s
  {
    if s != [] {
      SortDedupSorts(s[1..]);
      InsertIndexKeepsOrder(s[0], SortDedup(s[1..]));
      assert s == [s[0]] + s[1..];
    }
  }

  /** Two ascending lists with the same elements are the same list. */
  lemma {:induction false} AscendingIsDetermined(s: seq<nat>, t: seq<nat>)
    requires StrictlyAscending(s) && StrictlyAscending(t)
    requires forall y :: y in s <==> y in t
    ensures s == t
  {
    assert s != [] ==> s[0] in t;
    assert t != [] ==> t[0] in s;
    if s != [] {
      assert s == [s[0]] + s[1..] && t == [t[0]] + t[1..];
      assert s[0] == t[0];
      forall y ensures y in s[1..] <==> y in t[1..] {
        assert y in s <==> y == s[0] || y in s[1..];
        assert y in t <==> y == t[0] || y in t[1..];
      }
      AscendingIsDetermined(s[1..], t[1..]);
    }
  }

  // ---- index remapping ----

  ghost predicate InBounds(s: seq<nat>, size: nat) {
    forall i :: 0 <= i < |s| ==> s[i] < size
  }

  /** Every index of s looked up in the mapping, in order. */
  function Lift(s: seq<nat>, mapping: seq<nat>): (r: seq<nat>)
    requires InBounds(s, |mapping|)
    ensures |r| == |s|
    ensures forall i :: 0 <= i < |s| ==> r[i] == mapping[s[i]]
  {
    seq(|s|, i requires 0 <= i < |s| => mapping[s[i]])
  }

  lemma InsertIndexBounds(x: nat, s: seq<nat>, size: nat)
    requires x < size && InBounds(s, size)
    ensures InBounds(InsertIndex(x, s), size)
  {
  }

  lemma SortDedupBounds(s: seq<nat>, size: nat)
    requires InBounds(s, size)
    ensures InBounds(SortDedup(s), size)
  {
    SortDedupSorts(s);
    forall i | 0 <= i < |SortDedup(s)| ensures SortDedup(s)[i] < size {
      assert SortDedup(s)[i] in s;
    }
  }

  lemma {:induction false} InsertIndexCommutesWithLift(x: nat, s: seq<nat>, mapping: seq<nat>)
    requires x < |mapping| && InBounds(s, |mapping|)
    requires StrictlyAscending(mapping)
    ensures InBounds(InsertIndex(x, s), |mapping|)
    ensures InsertIndex(mapping[x], Lift(s, mapping)) == Lift(InsertIndex(x, s), mapping)
  {
    InsertIndexBounds(x, s, |mapping|);
    if s == [] || x <= s[0] {
    } else {
      InsertIndexCommutesWithLift(x, s[1..], mapping);
      assert Lift(s, mapping)[1..] == Lift(s[1..], mapping);
      assert Lift(s, mapping)[0] == mapping[s[0]];
    }
  }

  /** Sorting and deduplicating commutes with an ascending remapping. */
  lemma {:induction false} SortDedupCommutesWithLift(s: seq<nat>, mapping: seq<nat>)
    requires InBounds(s, |mapping|)
    requires StrictlyAscending(mapping)
    ensures InBounds(SortDedup(s), |mapping|)
    ensures SortDedup(Lift(s, mapping)) == Lift(SortDedup(s), mapping)
  {
    SortDedupBounds(s, |mapping|);
    if s != [] {
      SortDedupCommutesWithLift(s[1..], mapping);
      SortDedupBounds(s[1..], |mapping|);
      assert Lift(s, mapping)[1..] == Lift(s[1..], mapping);
      InsertIndexCommutesWithLift(s[0], SortDedup(s[1..]), mapping);
    }
  }

  lemma LiftConcat(s: seq<nat>, t: seq<nat>, mapping: seq<nat>)
    requires InBounds(s, |mapping|) && InBounds(t, |mapping|)
    ensures Lift(s + t, mapping) == Lift(s, mapping) + Lift(t, mapping)
  {
  }

  // ---- text in lexical order ----

  predicate TextLe(a: string, b: string) {
    a == "" || (b != "" && (a[0] < b[0] || (a[0] == b[0] && TextLe(a[1..], b[1..]))))
  }

  lemma {:induction false} TextLeIsTotal(a: string, b: string)
    ensures TextLe(a, b) || TextLe(b, a)
    ensures TextLe(a, b) && TextLe(b, a) ==> a == b
  {
    if a != "" && b != "" {
      TextLeIsTotal(a[1..], b[1..]);
      assert a == [a[0]] + a[1..] && b == [b[0]] + b[1..];
    }
  }

  lemma {:induction false} TextLeJoins(a: string, b: string, c: string)
    requires TextLe(a, b) && TextLe(b, c)
    ensures TextLe(a, c)
  {
    if a != "" && a[0] == b[0] == c[0] { TextLeJoins(a[1..], b[1..], c[1..]); }
  }

  lemma {:induction false} LeastText(texts: set<string>) returns (least: string)
    requires texts != {}
    ensures least in texts && forall text :: text in texts ==> TextLe(least, text)
  {
    var one :| one in texts;
    TextLeIsTotal(one, one);
    least := one;
    if texts != {one} {
      assert texts == (texts - {one}) + {one};
      var other := LeastText(texts - {one});
      TextLeIsTotal(one, other);
      if !TextLe(one, other) { least := other; }
      forall text | text in texts ensures TextLe(least, text) {
        if text != one && least == one { TextLeJoins(one, other, text); }
      }
    }
  }
}
