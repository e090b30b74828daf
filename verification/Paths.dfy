/** Structured node and namespace paths, and their slash-separated text
    (crates/group-agent-core/src/path.rs). */
module Paths {

  type NodeId = string

  const START: NodeId := "__start__"
  const END: NodeId := "__end__"

  predicate IsReserved(id: NodeId) { id == START || id == END }

  /** A namespace: the mount identifiers from the root. */
  type GraphPath = seq<NodeId>

  /** A namespace followed by a leaf, so never empty. */
  type NodePath = seq<NodeId>

  const ROOT: GraphPath := []

  function Child(path: GraphPath, segment: NodeId): GraphPath { path + [segment] }

  function Prefixed(path: seq<NodeId>, prefix: GraphPath): seq<NodeId> { prefix + path }

  function NewNodePath(graphPath: GraphPath, id: NodeId): NodePath { graphPath + [id] }

  function Leaf(path: NodePath): NodeId
    requires path != []
  {
    path[|path| - 1]
  }

  /** The containing namespace of a node path. */
  function GraphPathOf(path: NodePath): GraphPath
    requires path != []
  {
    path[..|path| - 1]
  }

  /** The node path of the mount that opens a namespace. */
  function MountPath(path: GraphPath): NodePath
    requires path != ROOT
  {
    path
  }

  /** Prefixing moves a path under a mount and changes neither its leaf nor the
      way its namespace is read off. */
  lemma PrefixedKeepsStructure(path: NodePath, prefix: GraphPath)
    requires path != []
    ensures Leaf(Prefixed(path, prefix)) == Leaf(path)
    ensures GraphPathOf(Prefixed(path, prefix)) == Prefixed(GraphPathOf(path), prefix)
    ensures NewNodePath(GraphPathOf(path), Leaf(path)) == path
  {
  }

  /** A child namespace is opened by a mount that sits in the parent namespace
      under the segment, wherever the parent itself is mounted. */
  lemma ChildIsMounted(path: GraphPath, segment: NodeId, prefix: GraphPath)
    ensures Child(path, segment) != ROOT
    ensures GraphPathOf(MountPath(Child(path, segment))) == path && Leaf(MountPath(Child(path, segment))) == segment
    ensures Prefixed(Child(path, segment), prefix) == Child(Prefixed(path, prefix), segment)
  {
    assert prefix + (path + [segment]) == (prefix + path) + [segment];
  }

  // ---- display text ----

  const ROOT_LABEL := "<root>"

  function EscapeChar(c: char): string {
    if c == '%' then "%25" else if c == '/' then "%2F" else [c]
  }

  function Escape(segment: NodeId): string {
    if segment == "" then "" else EscapeChar(segment[0]) + Escape(segment[1..])
  }

  function RenderSegments(segments: seq<NodeId>): string {
    if segments == [] then "" else "/" + Escape(segments[0]) + RenderSegments(segments[1..])
  }

  function Render(segments: seq<NodeId>, rootLabel: bool): string {
    if segments == [] then (if rootLabel then ROOT_LABEL else "") else RenderSegments(segments)
  }

  lemma {:induction false} EscapeSnoc(segment: NodeId, c: char)
    ensures Escape(segment + [c]) == Escape(segment) + EscapeChar(c)
  {
    if segment == "" {
      assert segment + [c] == [c];
      assert [c][1..] == "";
    } else {
      assert (segment + [c])[1..] == segment[1..] + [c];
      EscapeSnoc(segment[1..], c);
    }
  }

  lemma {:induction false} RenderSegmentsSnoc(segments: seq<NodeId>, segment: NodeId)
    ensures RenderSegments(segments + [segment]) == RenderSegments(segments) + "/" + Escape(segment)
  {
    if segments == [] {
      assert segments + [segment] == [segment];
      assert [segment][1..] == [];
    } else {
      assert (segments + [segment])[1..] == segments[1..] + [segment];
      RenderSegmentsSnoc(segments[1..], segment);
    }
  }

  /** Slashes and percent signs are escaped, character by character. */
  lemma {:induction false} EscapeIs(a: NodeId, b: NodeId)
    ensures Escape(a + b) == Escape(a) + Escape(b)
    ensures Escape(['/']) == "%2F" && Escape(['%']) == "%25"
  {
    hide EscapeChar;
    SpecialCharacters();
    assert ['/'][1..] == "" && ['%'][1..] == "";
    if a == "" {
      assert a + b == b;
    } else {
      EscapeIs(a[1..], b);
      assert (a + b)[1..] == a[1..] + b;
    }
  }

  lemma SpecialCharacters()
    ensures EscapeChar('/') == "%2F" && EscapeChar('%') == "%25"
    ensures forall c :: c != '/' && c != '%' ==> EscapeChar(c) == [c]
  {
  }

  /** Any other text displays as it is. */
  lemma {:induction false} PlainText(segment: NodeId)
    requires forall k :: 0 <= k < |segment| ==> segment[k] != '/' && segment[k] != '%'
    ensures Escape(segment) == segment
  {
    hide EscapeChar;
    SpecialCharacters();
    if segment != "" {
      PlainText(segment[1..]);
      assert segment == [segment[0]] + segment[1..];
    }
  }

  /** The display text: `<root>` or nothing for the root, and otherwise each
      escaped segment after a slash. */
  lemma {:induction false} DisplayIs(segments: seq<NodeId>, segment: NodeId, rootLabel: bool)
    ensures Render([], true) == "<root>" && Render([], false) == ""
    ensures Render(segments + [segment], rootLabel) == Render(segments, false) + "/" + Escape(segment)
  {
    RenderSegmentsSnoc(segments, segment);
  }

  /** Writes a path character by character, as `Display` does. */
  method WriteSegments(segments: seq<NodeId>, rootLabel: bool) returns (text: string)
    ensures text == Render(segments, rootLabel)
  {
    text := "";
    if segments == [] {
      if rootLabel { text := ROOT_LABEL; }
      return;
    }
    hide Escape;
    for i := 0 to |segments|
      invariant text == RenderSegments(segments[..i])
    {
      text := WriteSegment(text + "/", segments[i]);
      assert segments[..i + 1] == segments[..i] + [segments[i]];
      RenderSegmentsSnoc(segments[..i], segments[i]);
    }
    assert segments[..|segments|] == segments;
  }

  method WriteSegment(before: string, segment: NodeId) returns (text: string)
    ensures text == before + Escape(segment)
  {
    hide Escape;
    text := before;
    EscapeNothing();
    for j := 0 to |segment|
      invariant text == before + Escape(segment[..j])
    {
      var c := segment[j];
      assert segment[..j + 1] == segment[..j] + [c];
      EscapeSnoc(segment[..j], c);
      if c == '%' {
        text := text + "%25";
      } else if c == '/' {
        text := text + "%2F";
      } else {
        text := text + [c];
      }
    }
    assert segment[..|segment|] == segment;
  }

  lemma EscapeNothing()
    ensures Escape("") == ""
  {
  }

  // ---- reading the text back ----

  /** Undoes the escapes up to the next slash. */
  function ReadSegment(text: string): (NodeId, string)
    decreases |text|
  {
    if text == "" || text[0] == '/' then ("", text)
    else if "%25" <= text then
      var (segment, rest) := ReadSegment(text[3..]);
      (['%'] + segment, rest)
    else if "%2F" <= text then
      var (segment, rest) := ReadSegment(text[3..]);
      (['/'] + segment, rest)
    else
      var (segment, rest) := ReadSegment(text[1..]);
      ([text[0]] + segment, rest)
  }

  lemma ReadSegmentShrinks(text: string)
    ensures |ReadSegment(text).1| <= |text|
  {
  }

  function ReadPath(text: string): seq<NodeId>
    decreases |text|
  {
    if text == "" || text[0] != '/' then []
    else
      var (segment, rest) := ReadSegment(text[1..]);
      ReadSegmentShrinks(text[1..]);
      [segment] + ReadPath(rest)
  }

  /** One escaped character reads back as that character. */
  lemma ReadUndoesEscapeChar(c: char, more: string)
    ensures ReadSegment(EscapeChar(c) + more) == ([c] + ReadSegment(more).0, ReadSegment(more).1)
  {
    var text := EscapeChar(c) + more;
    if c == '%' {
      assert text[..3] == "%25" && text[3..] == more;
    } else if c == '/' {
      assert text[2] == 'F' && text[..3] == "%2F" && text[3..] == more;
    } else {
      assert text[0] == c && text[1..] == more;
    }
  }

  lemma {:induction false} ReadUndoesEscape(segment: NodeId, rest: string)
    requires rest == "" || rest[0] == '/'
    ensures ReadSegment(Escape(segment) + rest) == (segment, rest)
  {
    hide ReadSegment, EscapeChar;
    if segment == "" {
      assert Escape(segment) + rest == rest;
      ReadSegmentStops(rest);
    } else {
      var c, tail := segment[0], segment[1..];
      ReadUndoesEscape(tail, rest);
      ReadUndoesEscapeChar(c, Escape(tail) + rest);
      assert Escape(segment) + rest == EscapeChar(c) + (Escape(tail) + rest);
      assert [c] + tail == segment;
    }
  }

  lemma ReadSegmentStops(text: string)
    requires text == "" || text[0] == '/'
    ensures ReadSegment(text) == ("", text)
  {
  }

  lemma {:induction false} RenderedTailStartsWithSlash(segments: seq<NodeId>)
    ensures RenderSegments(segments) == "" || RenderSegments(segments)[0] == '/'
    ensures RenderSegments(segments) == "" <==> segments == []
  {
  }

  /** Reading is a left inverse of writing on every segment list, empty segments
      and the labelled root included. */
  lemma {:induction false} ReadUndoesRender(segments: seq<NodeId>, rootLabel: bool)
    ensures ReadPath(Render(segments, rootLabel)) == segments
    decreases |segments|
  {
    hide Escape, ReadSegment;
    if segments != [] {
      var rest := RenderSegments(segments[1..]);
      RenderedTailStartsWithSlash(segments[1..]);
      var text := RenderSegments(segments);
      assert text[1..] == Escape(segments[0]) + rest;
      ReadUndoesEscape(segments[0], rest);
      ReadUndoesRender(segments[1..], false);
      assert segments == [segments[0]] + segments[1..];
    }
  }

  /** Distinct paths never display alike. */
  lemma {:induction false} DisplayIsInjective(a: seq<NodeId>, b: seq<NodeId>, rootLabel: bool)
    ensures Render(a, rootLabel) == Render(b, rootLabel) <==> a == b
  {
    ReadUndoesRender(a, rootLabel);
    ReadUndoesRender(b, rootLabel);
  }
}
