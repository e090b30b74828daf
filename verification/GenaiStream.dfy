/** The genai stream wrapper: what it emits for what it is fed
    (crates/group-agent-genai/src/stream.rs:86-118, 217-358, 397-483). */
module GenaiStream {
  import opened Base
  import opened UsageMerging
  import opened Collector
  import opened CollectorChannels

  /** Provider metadata of a stream end: stop reason, identifiers, raw usage. */
  type EndMetadata(!new)
  type TransportError(!new)
  type MappingError(!new)

  datatype Part =
    | SignaturePart(signature: Text)
    | ToolCallPart
    | TextPart(content: Text)
    | ReasoningPart(reasoning: Text)
    | UnsupportedPart

  datatype StreamEnd = StreamEnd(parts: seq<Part>, reasoning: Option<Text>, metadata: EndMetadata)

  datatype InnerEvent =
    | Start
    | Chunk(content: Text)
    | ReasoningChunk(content: Text)
    | ThoughtSignatureChunk
    | ToolCallChunk
    | End(end: StreamEnd)
    | FutureEvent

  /** What polling the inner stream can give. */
  datatype InnerPoll = NotReady | Closed | Broken(error: TransportError) | Item(event: InnerEvent)

  datatype Fault =
    | DuplicateStreamStart
    | MissingStreamEnd
    | ReasoningLimitExceeded
    | ThoughtSignatureLimitExceeded
    | UnexpectedThoughtSignatureInTextOnlyStream
    | UnexpectedToolCallInTextOnlyStream
    | UnsupportedResponseContent
    | ConflictingReasoningContent
    | Transport(transport: TransportError)
    | Mapping(mapping: MappingError)

  /** The three kinds of closing events. */
  datatype Ending = Ending(started: Started, usage: Option<TokenUsage>, reason: FinishReason)

  /** Limits, and the mapping of provider metadata into portable values. */
  datatype Config = Config(retainReasoning: bool, maxReasoning: nat, maxSignatures: nat,
                           mapEnd: (EndMetadata, Text, seq<Text>) -> Result<Ending, MappingError>)

  type Output = Result<Event, Fault>

  // ---- pieces ----

  function PushReasoning(cfg: Config, reasoning: Text, chunk: Text): Result<Text, Fault> {
    if !cfg.retainReasoning then Ok(reasoning)
    else if |reasoning| + |chunk| > cfg.maxReasoning then Err(ReasoningLimitExceeded)
    else Ok(reasoning + chunk)
  }

  datatype Captured = Captured(reasoning: Text, signatures: seq<Text>, toolCalls: nat)

  /** The terminal content parts in order; replayed text is ignored. */
  function CaptureParts(cfg: Config, reasoning: Text, parts: seq<Part>): Result<Captured, Fault> {
    if parts == [] then Ok(Captured(reasoning, [], 0))
    else
      match CaptureParts(cfg, reasoning, parts[..|parts| - 1])
      case Err(fault) => Err(fault)
      case Ok(c) =>
        match parts[|parts| - 1]
        case SignaturePart(signature) => Ok(c.(signatures := c.signatures + [signature]))
        case ToolCallPart => Ok(c.(toolCalls := c.toolCalls + 1))
        case TextPart(_) => Ok(c)
        case UnsupportedPart => Err(UnsupportedResponseContent)
        case ReasoningPart(more) =>
          match PushReasoning(cfg, c.reasoning, more)
          case Err(fault) => Err(fault)
          case Ok(all) => Ok(c.(reasoning := all))
  }

  function TotalBytes(texts: seq<Text>): nat {
    if texts == [] then 0 else TotalBytes(texts[..|texts| - 1]) + |texts[|texts| - 1]|
  }

  function ReconcileReasoning(cfg: Config, reasoning: Text, captured: Option<Text>): Result<Text, Fault> {
    if !cfg.retainReasoning || captured.None? then Ok(reasoning)
    else if reasoning == [] then PushReasoning(cfg, reasoning, captured.value)
    else if reasoning != captured.value then Err(ConflictingReasoningContent)
    else Ok(reasoning)
  }

  function EndEvents(e: Ending): seq<Event> {
    [ResponseStarted(e.started)] + (if e.usage.Some? then [Usage(e.usage.value)] else []) + [Finished(e.reason)]
  }

  function HandleEnd(cfg: Config, reasoning: Text, end: StreamEnd): Result<Ending, Fault> {
    match CaptureParts(cfg, reasoning, end.parts)
    case Err(fault) => Err(fault)
    case Ok(c) =>
      if TotalBytes(c.signatures) > cfg.maxSignatures then Err(ThoughtSignatureLimitExceeded)
      else if c.toolCalls > 0 then Err(UnexpectedToolCallInTextOnlyStream)
      else
        match ReconcileReasoning(cfg, c.reasoning, end.reasoning)
        case Err(fault) => Err(fault)
        case Ok(all) =>
          match cfg.mapEnd(end.metadata, all, c.signatures)
          case Err(error) => Err(Mapping(error))
          case Ok(ending) => Ok(ending)
  }

  // ---- what a polled prefix of the inner stream amounts to ----

  datatype Wire = Wire(out: seq<Output>, sawStart: bool, reasoning: Text, over: bool)

  function Oks(events: seq<Event>): (out: seq<Output>)
    ensures |out| == |events| && forall k :: 0 <= k < |out| ==> out[k] == Ok(events[k])
  {
    seq(|events|, k requires 0 <= k < |events| => Ok(events[k]))
  }

  function Fail(w: Wire, fault: Fault): Wire { w.(out := w.out + [Err(fault)], over := true) }

  function Fed(cfg: Config, w: Wire, poll: InnerPoll): Wire {
    if w.over then w
    else
      match poll
      case NotReady => w
      case Closed => Fail(w, MissingStreamEnd)
      case Broken(error) => Fail(w, Transport(error))
      case Item(event) =>
        match event
        case Start => if w.sawStart then Fail(w, DuplicateStreamStart) else w.(sawStart := true)
        case Chunk(content) => w.(out := w.out + [Ok(TextDelta(content))])
        case ReasoningChunk(content) =>
          (match PushReasoning(cfg, w.reasoning, content)
           case Err(fault) => Fail(w, fault)
           case Ok(all) => w.(reasoning := all))
        case ThoughtSignatureChunk => Fail(w, UnexpectedThoughtSignatureInTextOnlyStream)
        case ToolCallChunk => Fail(w, UnexpectedToolCallInTextOnlyStream)
        case FutureEvent => Fail(w, UnsupportedResponseContent)
        case End(end) =>
          match HandleEnd(cfg, w.reasoning, end)
          case Err(fault) => Fail(w, fault)
          case Ok(ending) => w.(out := w.out + Oks(EndEvents(ending)), over := true)
  }

  function FedAll(cfg: Config, polls: seq<InnerPoll>): Wire {
    if polls == [] then Wire([], false, [], false)
    else Fed(cfg, FedAll(cfg, polls[..|polls| - 1]), polls[|polls| - 1])
  }

  // ---- the wrapper ----

  datatype Polled = PollPending | Ready(item: Option<Output>)

  class GenaiEventStream {
    const cfg: Config
    /** What the inner stream will answer, poll after poll, before it is idle. */
    const inner: seq<InnerPoll>
    var polls: nat
    var pending: seq<Output>
    var sawStart: bool
    var sawEnd: bool
    var terminal: bool
    var reasoning: Text
    ghost var emitted: seq<Output>

    function Wires(): Wire
      requires polls <= |inner|
      reads this`polls
    {
      FedAll(cfg, inner[..polls])
    }

    /** Emitted and queued items together are what the polled prefix amounts to. */
    ghost predicate Valid()
      reads this
    {
      && polls <= |inner|
      && emitted + pending == Wires().out
      && (pending != [] ==> sawEnd && !terminal)
      && (terminal <==> Wires().over && pending == [])
      && (sawEnd ==> Wires().over)
      && (!Wires().over ==> sawStart == Wires().sawStart && reasoning == Wires().reasoning)
    }

    constructor (cfg: Config, inner: seq<InnerPoll>)
      ensures this.cfg == cfg && this.inner == inner && emitted == [] && polls == 0 && Valid()
    {
      this.cfg, this.inner := cfg, inner;
      polls, pending, sawStart, sawEnd, terminal, reasoning := 0, [], false, false, false, [];
      emitted := [];
    }

    method Fail(fault: Fault) returns (item: Option<Output>)
      modifies this`terminal, this`pending, this`emitted
      ensures item == Some(Err(fault)) && terminal && pending == [] && emitted == old(emitted) + [Err(fault)]
    {
      terminal, pending := true, [];
      emitted := emitted + [Err(fault)];
      item := Some(Err(fault));
    }

    /** Each ready item is the next one the inner stream amounts to; after the
        last there is only `None`; and once the end or an error was met the inner
        stream is not polled again. */
    method PollNext() returns (r: Polled)
      requires Valid()
      modifies this
      ensures Valid() && old(polls) <= polls
      ensures old(Wires()).over ==> polls == old(polls)
      ensures r.Ready? && r.item.Some? ==> emitted == old(emitted) + [r.item.value]
      ensures !(r.Ready? && r.item.Some?) ==> emitted == old(emitted)
      ensures r == Ready(None) <==> old(terminal)
      ensures r == PollPending ==> !Wires().over && (polls == |inner| || (polls > 0 && inner[polls - 1].NotReady?))
    {
      hide Fed, FedAll;
      if terminal { return Ready(None); }
      if pending != [] {
        var event := pending[0];
        assert emitted + pending == emitted + [event] + pending[1..];
        pending := pending[1..];
        emitted := emitted + [event];
        if sawEnd && pending == [] { terminal := true; }
        return Ready(Some(event));
      }
      while polls < |inner|
        invariant Listening() && emitted == old(emitted) && old(polls) <= polls
        decreases |inner| - polls
      {
        var poll := inner[polls];
        FedOne(cfg, inner, polls);
        if poll.NotReady? {
          polls := polls + 1;
          return PollPending;
        }
        var item := Receive(poll);
        if item.Some? { return Ready(item); }
      }
      r := PollPending;
    }

    /** Nothing queued, nothing over. */
    ghost predicate Listening()
      reads this
    {
      Valid() && pending == [] && !terminal && !sawEnd && !Wires().over
    }

    /** Handles one ready poll of the inner stream; most give an item. */
    method Receive(poll: InnerPoll) returns (item: Option<Output>)
      requires Listening() && polls < |inner| && inner[polls] == poll && !poll.NotReady?
      requires FedAll(cfg, inner[..polls + 1]) == Fed(cfg, FedAll(cfg, inner[..polls]), poll)
      modifies this
      ensures Valid() && polls == old(polls) + 1
      ensures item.None? ==> Listening() && emitted == old(emitted)
      ensures item.Some? ==> emitted == old(emitted) + [item.value]
    {
      hide HandleEnd, FedAll, EndEvents;
      assert emitted + [] == emitted;
      polls := polls + 1;
      match poll
      case NotReady => assert false;
      case Closed => item := Fail(MissingStreamEnd);
      case Broken(error) => item := Fail(Transport(error));
      case Item(event) =>
        match event
        case Start =>
          if sawStart {
            item := Fail(DuplicateStreamStart);
          } else {
            sawStart := true;
            item := None;
          }
        case Chunk(content) =>
          item := Some(Ok(TextDelta(content)));
          emitted := emitted + [item.value];
        case ReasoningChunk(content) =>
          var all := PushReasoning(cfg, reasoning, content);
          if all.Err? {
            item := Fail(all.error);
          } else {
            reasoning := all.value;
            item := None;
          }
        case ThoughtSignatureChunk => item := Fail(UnexpectedThoughtSignatureInTextOnlyStream);
        case ToolCallChunk => item := Fail(UnexpectedToolCallInTextOnlyStream);
        case FutureEvent => item := Fail(UnsupportedResponseContent);
        case End(end) =>
          var ending := HandleEnd(cfg, reasoning, end);
          if ending.Err? {
            item := Fail(ending.error);
          } else {
            item := Finish(ending.value);
          }
    }

    /** Queues the closing events and hands out the first. */
    method Finish(ending: Ending) returns (item: Option<Output>)
      requires pending == [] && !terminal
      modifies this`pending, this`sawEnd, this`emitted
      ensures sawEnd && pending != [] && item.Some? && emitted == old(emitted) + [item.value]
      ensures emitted + pending == old(emitted) + Oks(EndEvents(ending))
    {
      pending := Oks(EndEvents(ending));
      sawEnd := true;
      item := Some(pending[0]);
      assert emitted + pending == emitted + [pending[0]] + pending[1..];
      emitted := emitted + [pending[0]];
      pending := pending[1..];
    }
  }

  lemma FedOne(cfg: Config, inner: seq<InnerPoll>, n: nat)
    requires n < |inner|
    ensures FedAll(cfg, inner[..n + 1]) == Fed(cfg, FedAll(cfg, inner[..n]), inner[n])
    ensures Fed(cfg, FedAll(cfg, inner[..n]), NotReady) == FedAll(cfg, inner[..n])
  {
    assert inner[..n + 1][..n] == inner[..n];
  }

  // ---- the output grammar ----

  /** The text chunks of the inner stream, up to its end or first error. */
  function Chunks(cfg: Config, polls: seq<InnerPoll>): seq<Text> {
    if polls == [] then []
    else
      var before, last := polls[..|polls| - 1], polls[|polls| - 1];
      Chunks(cfg, before)
      + (if !FedAll(cfg, before).over && last.Item? && last.event.Chunk? then [last.event.content] else [])
  }

  function Deltas(texts: seq<Text>): (events: seq<Event>)
    ensures |events| == |texts| && forall k :: 0 <= k < |events| ==> events[k] == TextDelta(texts[k])
  {
    seq(|texts|, k requires 0 <= k < |texts| => TextDelta(texts[k]))
  }

  /** TextDelta* and then nothing yet, one error, or the closing events. */
  ghost predicate FitsGrammar(w: Wire, texts: seq<Text>) {
    var deltas := Oks(Deltas(texts));
    if !w.over then w.out == deltas
    else
      || (exists fault :: w.out == deltas + [Err(fault)])
      || (exists ending :: w.out == deltas + Oks(EndEvents(ending)))
  }

  /** What one poll of the inner stream can add. */
  ghost predicate Adds(w: Wire, after: Wire, poll: InnerPoll) {
    if poll.Item? && poll.event.Chunk? then !after.over && after.out == w.out + [Ok(TextDelta(poll.event.content))]
    else if !after.over then after.out == w.out
    else
      || (exists fault :: after.out == w.out + [Err(fault)])
      || (exists ending :: after.out == w.out + Oks(EndEvents(ending)))
  }

  lemma FedAdds(cfg: Config, w: Wire, poll: InnerPoll)
    requires !w.over
    ensures Adds(w, Fed(cfg, w, poll), poll)
  {
    hide HandleEnd, PushReasoning, Oks, EndEvents;
  }

  /** Whatever the inner stream does, the items come in that shape and carry its
      chunks in order. */
  lemma {:induction false} OutputGrammar(cfg: Config, polls: seq<InnerPoll>)
    ensures FitsGrammar(FedAll(cfg, polls), Chunks(cfg, polls))
  {
    hide Fed, EndEvents;
    if polls != [] {
      var before, last := polls[..|polls| - 1], polls[|polls| - 1];
      OutputGrammar(cfg, before);
      var texts, w := Chunks(cfg, before), FedAll(cfg, before);
      assert texts + [] == texts;
      OverStays(cfg, w, last);
      if !w.over {
        FedAdds(cfg, w, last);
        if last.Item? && last.event.Chunk? {
          assert Deltas(texts + [last.event.content]) == Deltas(texts) + [TextDelta(last.event.content)];
          assert Oks(Deltas(texts + [last.event.content])) == Oks(Deltas(texts)) + [Ok(TextDelta(last.event.content))];
        }
      }
    }
  }

  lemma OverStays(cfg: Config, w: Wire, poll: InnerPoll)
    ensures w.over ==> Fed(cfg, w, poll) == w
  {
  }

  function Concat(texts: seq<Text>): Text {
    if texts == [] then [] else Concat(texts[..|texts| - 1]) + texts[|texts| - 1]
  }

  lemma {:induction false} DeltasCollect(limits: Limits, texts: seq<Text>)
    requires |Concat(texts)| <= limits.maxText
    ensures AllAccepted(limits, Deltas(texts))
    ensures PushedAll(limits, Deltas(texts)) == EMPTY.(text := Concat(texts))
  {
    if texts != [] {
      var front := texts[..|texts| - 1];
      DeltasCollect(limits, front);
      assert Deltas(texts) == Deltas(front) + [TextDelta(texts[|texts| - 1])];
      AcceptedAppend(limits, Deltas(front), TextDelta(texts[|texts| - 1]));
    }
  }

  lemma EndedTraceCollects(limits: Limits, texts: seq<Text>, ending: Ending)
    requires |Concat(texts)| <= limits.maxText
    ensures var events := Deltas(texts) + EndEvents(ending);
            && AllAccepted(limits, events)
            && PushedAll(limits, events)
               == Collected(Done, Some(ending.started), Concat(texts), map[], ending.usage, Some(ending.reason))
  {
    DeltasCollect(limits, texts);
    var e0 := Deltas(texts);
    AcceptedAppend(limits, e0, ResponseStarted(ending.started));
    var e1 := e0 + [ResponseStarted(ending.started)];
    if ending.usage.Some? {
      AcceptedAppend(limits, e1, Usage(ending.usage.value));
      var e2 := e1 + [Usage(ending.usage.value)];
      AcceptedAppend(limits, e2, Finished(ending.reason));
      assert e2 + [Finished(ending.reason)] == e0 + EndEvents(ending);
    } else {
      AcceptedAppend(limits, e1, Finished(ending.reason));
      assert e1 + [Finished(ending.reason)] == e0 + EndEvents(ending);
    }
  }

  /** The k-th poll ends the stream, and this is what its end is mapped to. */
  ghost predicate EndsWith(cfg: Config, polls: seq<InnerPoll>, k: nat, ending: Ending) {
    && k < |polls| && !FedAll(cfg, polls[..k]).over && polls[k].Item? && polls[k].event.End?
    && HandleEnd(cfg, FedAll(cfg, polls[..k]).reasoning, polls[k].event.end) == Ok(ending)
  }

  ghost predicate NoFault(out: seq<Output>) { forall k :: 0 <= k < |out| ==> out[k].Ok? }

  lemma LastPollEnds(cfg: Config, w: Wire, poll: InnerPoll) returns (ending: Ending)
    requires !w.over && Fed(cfg, w, poll).over && NoFault(Fed(cfg, w, poll).out)
    ensures poll.Item? && poll.event.End? && HandleEnd(cfg, w.reasoning, poll.event.end) == Ok(ending)
    ensures Fed(cfg, w, poll).out == w.out + Oks(EndEvents(ending))
  {
    hide HandleEnd, PushReasoning, EndEvents;
    var after := Fed(cfg, w, poll);
    assert forall fault :: (w.out + [Err(fault)])[|w.out|] == Err(fault);
    ending := HandleEnd(cfg, w.reasoning, poll.event.end).value;
  }

  /** A trace that is over without a fault is its chunks and one mapped ending. */
  lemma {:induction false} EndedTrace(cfg: Config, polls: seq<InnerPoll>) returns (k: nat, ending: Ending)
    requires FedAll(cfg, polls).over && NoFault(FedAll(cfg, polls).out)
    ensures EndsWith(cfg, polls, k, ending)
    ensures FedAll(cfg, polls).out == Oks(Deltas(Chunks(cfg, polls)) + EndEvents(ending))
  {
    hide Fed, EndEvents, HandleEnd;
    var last := |polls| - 1;
    var before := polls[..last];
    assert Chunks(cfg, before) + [] == Chunks(cfg, before);
    if FedAll(cfg, before).over {
      OverStays(cfg, FedAll(cfg, before), polls[last]);
      k, ending := EndedTrace(cfg, before);
      assert polls[..k] == before[..k];
    } else {
      k := last;
      OutputGrammar(cfg, before);
      ending := LastPollEnds(cfg, FedAll(cfg, before), polls[last]);
      var texts := Chunks(cfg, before);
      assert Oks(Deltas(texts)) + Oks(EndEvents(ending)) == Oks(Deltas(texts) + EndEvents(ending));
    }
  }

  /** Whatever the inner stream sends: when the wrapper is over without an error,
      the collector accepts its items, text limit permitting, and collects the
      concatenated chunks with the ending its end was mapped to. */
  lemma WrapperFitsCollector(cfg: Config, limits: Limits, polls: seq<InnerPoll>)
    returns (events: seq<Event>, k: nat, ending: Ending)
    requires FedAll(cfg, polls).over && NoFault(FedAll(cfg, polls).out)
    requires |Concat(Chunks(cfg, polls))| <= limits.maxText
    ensures FedAll(cfg, polls).out == Oks(events) && EndsWith(cfg, polls, k, ending)
    ensures AllAccepted(limits, events)
    ensures PushedAll(limits, events)
            == Collected(Done, Some(ending.started), Concat(Chunks(cfg, polls)), map[], ending.usage,
                         Some(ending.reason))
  {
    hide FedAll, EndEvents, HandleEnd, AllAccepted, PushedAll;
    k, ending := EndedTrace(cfg, polls);
    events := Deltas(Chunks(cfg, polls)) + EndEvents(ending);
    EndedTraceCollects(limits, Chunks(cfg, polls), ending);
  }
}
