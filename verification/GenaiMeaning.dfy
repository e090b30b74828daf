/** What the genai stream wrapper emits, read off the polls of the inner stream
    (crates/group-agent-genai/src/stream.rs:217-358, 397-483). */
module GenaiMeaning {
  import opened Base
  import opened Collector
  import opened GenaiStream

  // ---- what was heard ----

  function TextChunks(polls: seq<InnerPoll>): seq<Text> {
    if polls == [] then []
    else
      var last := polls[|polls| - 1];
      TextChunks(polls[..|polls| - 1]) + (if last.Item? && last.event.Chunk? then [last.event.content] else [])
  }

  function ReasoningChunks(polls: seq<InnerPoll>): seq<Text> {
    if polls == [] then []
    else
      var last := polls[|polls| - 1];
      ReasoningChunks(polls[..|polls| - 1])
      + (if last.Item? && last.event.ReasoningChunk? then [last.event.content] else [])
  }

  ghost predicate Started(polls: seq<InnerPoll>) { exists k :: 0 <= k < |polls| && polls[k] == Item(Start) }

  function Signatures(parts: seq<Part>): seq<Text> {
    if parts == [] then []
    else
      var last := parts[|parts| - 1];
      Signatures(parts[..|parts| - 1]) + (if last.SignaturePart? then [last.signature] else [])
  }

  function ReasoningParts(parts: seq<Part>): seq<Text> {
    if parts == [] then []
    else
      var last := parts[|parts| - 1];
      ReasoningParts(parts[..|parts| - 1]) + (if last.ReasoningPart? then [last.reasoning] else [])
  }

  /** Retained reasoning may not outgrow its limit. */
  predicate TooMuch(cfg: Config, heard: seq<Text>) { cfg.retainReasoning && |Concat(heard)| > cfg.maxReasoning }

  // ---- the end of the stream ----

  /** The i-th terminal part cannot be taken. */
  predicate PartFails(cfg: Config, heard: seq<Text>, parts: seq<Part>, i: nat, fault: Fault) {
    && i < |parts|
    && match parts[i]
       case UnsupportedPart => fault == UnsupportedResponseContent
       case ReasoningPart(_) =>
         TooMuch(cfg, heard + ReasoningParts(parts[..i + 1])) && fault == ReasoningLimitExceeded
       case _ => false
  }

  ghost predicate FirstFailing(cfg: Config, heard: seq<Text>, parts: seq<Part>, i: nat, fault: Fault) {
    && PartFails(cfg, heard, parts, i, fault)
    && forall j: nat, other :: j < i ==> !PartFails(cfg, heard, parts, j, other)
  }

  ghost predicate PartsTaken(cfg: Config, heard: seq<Text>, parts: seq<Part>) {
    forall i: nat, fault :: !PartFails(cfg, heard, parts, i, fault)
  }

  ghost predicate CallsTool(parts: seq<Part>) { exists i :: 0 <= i < |parts| && parts[i].ToolCallPart? }

  /** The one reasoning text: what the end repeats, or else what was streamed. */
  function Retained(cfg: Config, streamed: Text, repeated: Option<Text>): Text {
    if !cfg.retainReasoning then [] else if repeated.None? then streamed else repeated.value
  }

  /** What an end amounts to after `heard` was streamed; each refusal only when
      the ones before it do not apply. */
  ghost predicate EndGives(cfg: Config, heard: seq<Text>, end: StreamEnd, r: Result<Ending, Fault>) {
    var signatures := Signatures(end.parts);
    var streamed := Concat(heard + ReasoningParts(end.parts));
    if !PartsTaken(cfg, heard, end.parts) then
      r.Err? && exists i: nat :: FirstFailing(cfg, heard, end.parts, i, r.error)
    else if |Concat(signatures)| > cfg.maxSignatures then r == Err(ThoughtSignatureLimitExceeded)
    else if CallsTool(end.parts) then r == Err(UnexpectedToolCallInTextOnlyStream)
    else if cfg.retainReasoning && end.reasoning.Some? && streamed != [] && streamed != end.reasoning.value then
      r == Err(ConflictingReasoningContent)
    else if cfg.retainReasoning && end.reasoning.Some? && |end.reasoning.value| > cfg.maxReasoning then
      r == Err(ReasoningLimitExceeded)
    else MappedTo(cfg, end.metadata, Retained(cfg, streamed, end.reasoning), signatures, r)
  }

  /** The provider metadata is mapped together with the reasoning and signatures. */
  ghost predicate MappedTo(cfg: Config, metadata: EndMetadata, text: Text, signatures: seq<Text>,
                           r: Result<Ending, Fault>) {
    match cfg.mapEnd(metadata, text, signatures)
    case Err(error) => r == Err(Mapping(error))
    case Ok(ending) => r == Ok(ending)
  }

  lemma {:induction false} ConcatAppend(a: seq<Text>, b: seq<Text>)
    ensures Concat(a + b) == Concat(a) + Concat(b)
  {
    if b == [] {
      assert a + b == a;
    } else {
      var front := b[..|b| - 1];
      ConcatAppend(a, front);
      assert (a + b)[..|a + b| - 1] == a + front;
    }
  }

  lemma {:induction false} TotalIsConcat(texts: seq<Text>)
    ensures TotalBytes(texts) == |Concat(texts)|
  {
    if texts != [] { TotalIsConcat(texts[..|texts| - 1]); }
  }

  /** What the adapter retains of the reasoning heard. */
  function Kept(cfg: Config, heard: seq<Text>): Text { if cfg.retainReasoning then Concat(heard) else [] }

  lemma PushKeeps(cfg: Config, heard: seq<Text>, chunk: Text)
    ensures TooMuch(cfg, heard + [chunk]) ==> PushReasoning(cfg, Kept(cfg, heard), chunk) == Err(ReasoningLimitExceeded)
    ensures !TooMuch(cfg, heard + [chunk])
            ==> PushReasoning(cfg, Kept(cfg, heard), chunk) == Ok(Kept(cfg, heard + [chunk]))
  {
    ConcatAppend(heard, [chunk]);
    assert Concat([chunk]) == chunk;
  }

  lemma {:induction false} FailsOnPrefix(cfg: Config, heard: seq<Text>, parts: seq<Part>, i: nat, fault: Fault)
    requires i < |parts|
    ensures PartFails(cfg, heard, parts[..|parts| - 1], i, fault)
            <==> PartFails(cfg, heard, parts, i, fault) && i < |parts| - 1
  {
    if i < |parts| - 1 { assert parts[..|parts| - 1][..i + 1] == parts[..i + 1]; }
  }

  /** Capturing says what was captured, or which part came first that cannot be. */
  ghost predicate CaptureSays(cfg: Config, heard: seq<Text>, parts: seq<Part>, r: Result<Captured, Fault>) {
    match r
    case Err(fault) => exists i: nat :: FirstFailing(cfg, heard, parts, i, fault)
    case Ok(c) =>
      && PartsTaken(cfg, heard, parts) && c.signatures == Signatures(parts)
      && (c.toolCalls > 0 <==> CallsTool(parts))
      && c.reasoning == Kept(cfg, heard + ReasoningParts(parts))
      && !TooMuch(cfg, heard + ReasoningParts(parts))
  }

  lemma {:induction false} CaptureMeans(cfg: Config, heard: seq<Text>, parts: seq<Part>)
    requires !TooMuch(cfg, heard)
    ensures CaptureSays(cfg, heard, parts, CaptureParts(cfg, Kept(cfg, heard), parts))
  {
    hide PushReasoning, Kept, TooMuch;
    if parts == [] {
      assert heard + ReasoningParts(parts) == heard;
    } else {
      var front, n := parts[..|parts| - 1], |parts| - 1;
      CaptureMeans(cfg, heard, front);
      forall i: nat, fault | i < |parts| { FailsOnPrefix(cfg, heard, parts, i, fault); }
      var earlier := CaptureParts(cfg, Kept(cfg, heard), front);
      if earlier.Err? {
        var i: nat :| FirstFailing(cfg, heard, front, i, earlier.error);
        assert FirstFailing(cfg, heard, parts, i, earlier.error);
      } else {
        CaptureLast(cfg, heard, parts, earlier.value);
      }
    }
  }

  /** The last part fails, and none before it. */
  lemma LastFails(cfg: Config, heard: seq<Text>, parts: seq<Part>, fault: Fault)
    requires parts != [] && PartsTaken(cfg, heard, parts[..|parts| - 1])
    requires PartFails(cfg, heard, parts, |parts| - 1, fault)
    ensures FirstFailing(cfg, heard, parts, |parts| - 1, fault)
  {
    hide PartFails;
    forall i: nat, other | i < |parts| - 1 ensures !PartFails(cfg, heard, parts, i, other) {
      FailsOnPrefix(cfg, heard, parts, i, other);
    }
  }

  lemma AllTaken(cfg: Config, heard: seq<Text>, parts: seq<Part>)
    requires parts != [] && PartsTaken(cfg, heard, parts[..|parts| - 1])
    requires !PartFails(cfg, heard, parts, |parts| - 1, UnsupportedResponseContent)
    requires !PartFails(cfg, heard, parts, |parts| - 1, ReasoningLimitExceeded)
    ensures PartsTaken(cfg, heard, parts)
  {
    hide PartFails;
    forall i: nat, other ensures !PartFails(cfg, heard, parts, i, other) {
      FailsInside(cfg, heard, parts, i, other);
      if i < |parts| { FailsOnPrefix(cfg, heard, parts, i, other); }
    }
  }

  lemma FailsInside(cfg: Config, heard: seq<Text>, parts: seq<Part>, i: nat, fault: Fault)
    ensures PartFails(cfg, heard, parts, i, fault)
            ==> i < |parts| && (fault == UnsupportedResponseContent || fault == ReasoningLimitExceeded)
  {
  }

  lemma PartsGrow(parts: seq<Part>)
    requires parts != []
    ensures var front, last := parts[..|parts| - 1], parts[|parts| - 1];
            && Signatures(parts) == (if last.SignaturePart? then Signatures(front) + [last.signature]
                                     else Signatures(front))
            && ReasoningParts(parts) == (if last.ReasoningPart? then ReasoningParts(front) + [last.reasoning]
                                         else ReasoningParts(front))
            && (CallsTool(parts) <==> CallsTool(front) || last.ToolCallPart?)
  {
    var front, last := parts[..|parts| - 1], parts[|parts| - 1];
    assert parts == front + [last];
  }

  lemma LastPart(cfg: Config, heard: seq<Text>, parts: seq<Part>, fault: Fault)
    requires parts != []
    ensures PartFails(cfg, heard, parts, |parts| - 1, fault)
            <==> match parts[|parts| - 1]
                 case UnsupportedPart => fault == UnsupportedResponseContent
                 case ReasoningPart(_) => TooMuch(cfg, heard + ReasoningParts(parts)) && fault == ReasoningLimitExceeded
                 case _ => false
  {
    hide TooMuch, ReasoningParts;
    assert parts[..|parts| - 1 + 1] == parts;
  }

  lemma CaptureOne(cfg: Config, reasoning: Text, parts: seq<Part>, c: Captured)
    requires parts != [] && CaptureParts(cfg, reasoning, parts[..|parts| - 1]) == Ok(c)
    ensures var r := CaptureParts(cfg, reasoning, parts);
            match parts[|parts| - 1]
            case SignaturePart(signature) => r == Ok(c.(signatures := c.signatures + [signature]))
            case ToolCallPart => r == Ok(c.(toolCalls := c.toolCalls + 1))
            case TextPart(_) => r == Ok(c)
            case UnsupportedPart => r == Err(UnsupportedResponseContent)
            case ReasoningPart(more) =>
              match PushReasoning(cfg, c.reasoning, more)
              case Err(fault) => r == Err(fault)
              case Ok(all) => r == Ok(c.(reasoning := all))
  {
    hide PushReasoning;
  }

  lemma CaptureLast(cfg: Config, heard: seq<Text>, parts: seq<Part>, c: Captured)
    requires parts != []
    requires CaptureParts(cfg, Kept(cfg, heard), parts[..|parts| - 1]) == Ok(c)
    requires CaptureSays(cfg, heard, parts[..|parts| - 1], Ok(c))
    ensures CaptureSays(cfg, heard, parts, CaptureParts(cfg, Kept(cfg, heard), parts))
  {
    hide PushReasoning, Kept, TooMuch, PartsTaken, FirstFailing, PartFails, Signatures, ReasoningParts, CallsTool,
         CaptureParts;
    CaptureOne(cfg, Kept(cfg, heard), parts, c);
    LastPart(cfg, heard, parts, ReasoningLimitExceeded);
    LastPart(cfg, heard, parts, UnsupportedResponseContent);
    if parts[|parts| - 1].UnsupportedPart? {
      LastFails(cfg, heard, parts, UnsupportedResponseContent);
    } else if parts[|parts| - 1].ReasoningPart? {
      CaptureReasoning(cfg, heard, parts, c);
    } else {
      AllTaken(cfg, heard, parts);
      PartsGrow(parts);
    }
  }

  lemma CaptureReasoning(cfg: Config, heard: seq<Text>, parts: seq<Part>, c: Captured)
    requires parts != [] && parts[|parts| - 1].ReasoningPart?
    requires CaptureParts(cfg, Kept(cfg, heard), parts[..|parts| - 1]) == Ok(c)
    requires CaptureSays(cfg, heard, parts[..|parts| - 1], Ok(c))
    ensures CaptureSays(cfg, heard, parts, CaptureParts(cfg, Kept(cfg, heard), parts))
  {
    hide PushReasoning, Kept, TooMuch, PartsTaken, FirstFailing, PartFails, Signatures, ReasoningParts, CallsTool,
         CaptureParts;
    var said, more := heard + ReasoningParts(parts[..|parts| - 1]), parts[|parts| - 1].reasoning;
    CaptureOne(cfg, Kept(cfg, heard), parts, c);
    LastPart(cfg, heard, parts, ReasoningLimitExceeded);
    LastPart(cfg, heard, parts, UnsupportedResponseContent);
    PartsGrow(parts);
    PushKeeps(cfg, said, more);
    assert said + [more] == heard + ReasoningParts(parts);
    if TooMuch(cfg, said + [more]) {
      LastFails(cfg, heard, parts, ReasoningLimitExceeded);
    } else {
      AllTaken(cfg, heard, parts);
    }
  }

  lemma OneFirstFailing(cfg: Config, heard: seq<Text>, parts: seq<Part>)
    ensures forall i: nat, j: nat, fault, other ::
              FirstFailing(cfg, heard, parts, i, fault) && FirstFailing(cfg, heard, parts, j, other) ==> fault == other
    ensures forall i: nat, fault :: FirstFailing(cfg, heard, parts, i, fault) ==> !PartsTaken(cfg, heard, parts)
  {
    forall i: nat, j: nat, fault, other
      | FirstFailing(cfg, heard, parts, i, fault) && FirstFailing(cfg, heard, parts, j, other)
      ensures fault == other
    {
      assert i == j;
    }
  }

  /** Handling an end is exactly that. */
  lemma EndMeans(cfg: Config, heard: seq<Text>, end: StreamEnd, r: Result<Ending, Fault>)
    requires !TooMuch(cfg, heard)
    ensures EndGives(cfg, heard, end, r) <==> HandleEnd(cfg, Kept(cfg, heard), end) == r
  {
    hide CaptureParts, Signatures, ReasoningParts, Concat, TotalBytes, FirstFailing, PartsTaken, CallsTool, PartFails;
    CaptureMeans(cfg, heard, end.parts);
    TotalIsConcat(Signatures(end.parts));
    OneFirstFailing(cfg, heard, end.parts);
    var text := Retained(cfg, Concat(heard + ReasoningParts(end.parts)), end.reasoning);
    assert [] + text == text;
  }

  // ---- the whole stream ----

  /** What one poll makes the wrapper emit last, after `before` was polled. */
  ghost predicate StopsWith(cfg: Config, before: seq<InnerPoll>, poll: InnerPoll, items: seq<Output>) {
    match poll
    case NotReady => false
    case Closed => items == [Err(MissingStreamEnd)]
    case Broken(error) => items == [Err(Transport(error))]
    case Item(event) =>
      match event
      case Start => Started(before) && items == [Err(DuplicateStreamStart)]
      case Chunk(_) => false
      case ReasoningChunk(content) =>
        TooMuch(cfg, ReasoningChunks(before) + [content]) && items == [Err(ReasoningLimitExceeded)]
      case ThoughtSignatureChunk => items == [Err(UnexpectedThoughtSignatureInTextOnlyStream)]
      case ToolCallChunk => items == [Err(UnexpectedToolCallInTextOnlyStream)]
      case FutureEvent => items == [Err(UnsupportedResponseContent)]
      case End(end) => exists r :: EndGives(cfg, ReasoningChunks(before), end, r) && items == Closing(r)
  }

  /** An error alone, or the response start, the usage if there is one, and the finish. */
  function Closing(r: Result<Ending, Fault>): seq<Output> {
    match r
    case Err(fault) => [Err(fault)]
    case Ok(ending) =>
      if ending.usage.None? then [Ok(ResponseStarted(ending.started)), Ok(Finished(ending.reason))]
      else
        [Ok(ResponseStarted(ending.started)), Ok(Usage(ending.usage.value)), Ok(Finished(ending.reason))]
  }

  /** The k-th poll is the first that stops the stream, and these are its items. */
  ghost predicate StopsAt(cfg: Config, polls: seq<InnerPoll>, k: nat, items: seq<Output>) {
    && k < |polls| && StopsWith(cfg, polls[..k], polls[k], items)
    && RunsOn(cfg, polls[..k])
  }

  ghost predicate RunsOn(cfg: Config, polls: seq<InnerPoll>) {
    forall k: nat, items :: k < |polls| ==> !StopsWith(cfg, polls[..k], polls[k], items)
  }

  /** The text chunks in order, as long as nothing stops the stream; and what
      stopped it, if something did. Later polls add nothing. */
  ghost predicate StreamSays(cfg: Config, polls: seq<InnerPoll>, w: Wire) {
    if RunsOn(cfg, polls) then !w.over && w.out == Oks(Deltas(TextChunks(polls)))
    else
      && w.over
      && exists k: nat, items: seq<Output> ::
           StopsAt(cfg, polls, k, items) && w.out == Oks(Deltas(TextChunks(polls[..k]))) + items
  }

  /** The wrapper's own notes while nothing has stopped the stream. */
  ghost predicate Notes(cfg: Config, polls: seq<InnerPoll>, w: Wire) {
    && !w.over && w.out == Oks(Deltas(TextChunks(polls)))
    && (w.sawStart <==> Started(polls))
    && w.reasoning == Kept(cfg, ReasoningChunks(polls)) && !TooMuch(cfg, ReasoningChunks(polls))
  }

  lemma PollsGrow(polls: seq<InnerPoll>)
    requires polls != []
    ensures var before, last := polls[..|polls| - 1], polls[|polls| - 1];
            && (Started(polls) <==> Started(before) || last == Item(Start))
            && TextChunks(polls) == (if last.Item? && last.event.Chunk? then TextChunks(before) + [last.event.content]
                                     else TextChunks(before))
            && ReasoningChunks(polls)
               == (if last.Item? && last.event.ReasoningChunk? then ReasoningChunks(before) + [last.event.content]
                   else ReasoningChunks(before))
  {
    assert polls == polls[..|polls| - 1] + [polls[|polls| - 1]];
  }

  /** What one poll adds: the items that stop the stream, or a note. */
  ghost predicate PollSays(cfg: Config, before: seq<InnerPoll>, poll: InnerPoll, w: Wire, after: Wire) {
    if after.over then exists items :: StopsWith(cfg, before, poll, items) && after.out == w.out + items
    else Notes(cfg, before + [poll], after) && forall items :: !StopsWith(cfg, before, poll, items)
  }

  lemma EndPoll(cfg: Config, before: seq<InnerPoll>, end: StreamEnd, w: Wire)
    requires Notes(cfg, before, w)
    ensures PollSays(cfg, before, Item(End(end)), w, Fed(cfg, w, Item(End(end))))
  {
    hide HandleEnd, EndGives, TooMuch, Kept, Started, TextChunks, ReasoningChunks;
    var r := HandleEnd(cfg, w.reasoning, end);
    EndMeans(cfg, ReasoningChunks(before), end, r);
    assert StopsWith(cfg, before, Item(End(end)), Closing(r));
    if r.Ok? { assert Oks(EndEvents(r.value)) == Closing(r); }
  }

  lemma ChunkPoll(cfg: Config, before: seq<InnerPoll>, content: Text, w: Wire)
    requires Notes(cfg, before, w)
    ensures PollSays(cfg, before, Item(Chunk(content)), w, Fed(cfg, w, Item(Chunk(content))))
  {
    hide EndGives, TooMuch, Kept, Started, TextChunks, ReasoningChunks;
    var polls, texts := before + [Item(Chunk(content))], TextChunks(before);
    PollsGrow(polls);
    assert polls[..|polls| - 1] == before;
    assert Deltas(texts + [content]) == Deltas(texts) + [TextDelta(content)];
    assert Oks(Deltas(texts + [content])) == Oks(Deltas(texts)) + [Ok(TextDelta(content))];
  }

  lemma ReasoningPoll(cfg: Config, before: seq<InnerPoll>, content: Text, w: Wire)
    requires Notes(cfg, before, w)
    ensures PollSays(cfg, before, Item(ReasoningChunk(content)), w, Fed(cfg, w, Item(ReasoningChunk(content))))
  {
    hide PushReasoning, EndGives, TooMuch, Kept, Started, TextChunks, ReasoningChunks, Deltas, Oks;
    var polls := before + [Item(ReasoningChunk(content))];
    PollsGrow(polls);
    assert polls[..|polls| - 1] == before;
    PushKeeps(cfg, ReasoningChunks(before), content);
    if TooMuch(cfg, ReasoningChunks(before) + [content]) {
      assert StopsWith(cfg, before, Item(ReasoningChunk(content)), [Err(ReasoningLimitExceeded)]);
    }
  }

  lemma OnePoll(cfg: Config, before: seq<InnerPoll>, poll: InnerPoll, w: Wire)
    requires Notes(cfg, before, w)
    ensures PollSays(cfg, before, poll, w, Fed(cfg, w, poll))
  {
    hide HandleEnd, PushReasoning, EndGives, TooMuch, Kept, Started, TextChunks, ReasoningChunks, EndEvents,
         Deltas, Oks;
    if poll.Item? && poll.event.End? {
      EndPoll(cfg, before, poll.event.end, w);
    } else if poll.Item? && poll.event.Chunk? {
      ChunkPoll(cfg, before, poll.event.content, w);
    } else if poll.Item? && poll.event.ReasoningChunk? {
      ReasoningPoll(cfg, before, poll.event.content, w);
    } else {
      var after, polls := Fed(cfg, w, poll), before + [poll];
      PollsGrow(polls);
      assert polls[..|polls| - 1] == before;
      if after.over { assert StopsWith(cfg, before, poll, after.out[|w.out|..]); }
    }
  }

  lemma RunsOnPrefix(cfg: Config, before: seq<InnerPoll>, poll: InnerPoll)
    ensures RunsOn(cfg, before + [poll])
            <==> RunsOn(cfg, before) && forall items :: !StopsWith(cfg, before, poll, items)
  {
    hide StopsWith;
    var polls, n := before + [poll], |before|;
    assert polls[..n] == before && polls[n] == poll;
    assert forall k: nat :: k < n ==> polls[..k] == before[..k] && polls[k] == before[k];
  }

  /** The whole output of the wrapper, for every inner stream. */
  lemma {:induction false} StreamMeans(cfg: Config, polls: seq<InnerPoll>)
    ensures StreamSays(cfg, polls, FedAll(cfg, polls))
    ensures RunsOn(cfg, polls) ==> Notes(cfg, polls, FedAll(cfg, polls))
  {
    hide Fed, StopsWith, RunsOn, Kept, TooMuch, TextChunks;
    if polls == [] {
      NothingStops(cfg);
    } else {
      var n := |polls| - 1;
      var before, poll := polls[..n], polls[n];
      assert polls == before + [poll];
      StreamMeans(cfg, before);
      var w := FedAll(cfg, before);
      RunsOnPrefix(cfg, before, poll);
      OverStays(cfg, w, poll);
      if w.over {
        var k: nat, items: seq<Output> :| StopsAt(cfg, before, k, items)
                                          && w.out == Oks(Deltas(TextChunks(before[..k]))) + items;
        assert polls[..k] == before[..k];
        assert StopsAt(cfg, polls, k, items);
      } else {
        OnePoll(cfg, before, poll, w);
        if Fed(cfg, w, poll).over {
          var items :| StopsWith(cfg, before, poll, items) && Fed(cfg, w, poll).out == w.out + items;
          assert StopsAt(cfg, polls, n, items);
        }
      }
    }
  }

  lemma NothingStops(cfg: Config)
    ensures RunsOn(cfg, []) && Notes(cfg, [], FedAll(cfg, []))
  {
  }
}
