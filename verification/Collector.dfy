/** The streamed-response accumulator: atomic per event, poisoned by the first
    rejection (crates/group-agent-model/src/stream.rs:214-530). */
module Collector {
  import opened Base
  import opened UsageMerging

  /** UTF-8 text. */
  type Text = seq<bv8>
  type ToolCallId(!new)
  type ToolName(!new)
  type ResponseId(!new)
  type ModelId(!new)
  type FinishReason(!new)

  datatype ToolCallDelta = ToolCallDelta(index: nat, id: Option<ToolCallId>, name: Option<ToolName>, arguments: Text,
                                         extensions: Extensions)

  datatype Started = Started(responseId: Option<ResponseId>, model: Option<ModelId>, extensions: Extensions)

  datatype Event =
    | ResponseStarted(started: Started)
    | TextDelta(delta: Text)
    | ToolDelta(tool: ToolCallDelta)
    | Usage(usage: TokenUsage)
    | Finished(reason: FinishReason)

  datatype ToolField = IdField | NameField

  datatype ProtocolError =
    | DuplicateResponseStarted
    | EventAfterFinished
    | CollectorAlreadyFailed
    | MissingFinished
    | ToolCallIndexTooLarge(index: nat)
    | DuplicateToolCallField(index: nat, field: ToolField)
    | ConflictingToolCallExtension(index: nat, conflict: MergeConflict)
    | ExtensionLimitExceeded(index: nat)
    | TextLimitExceeded
    | ToolArgumentsLimitExceeded(index: nat)
    | InvalidUsage(error: UsageError)
    | MissingToolCallId(index: nat)
    | MissingToolCallName(index: nat)
    | InvalidToolArguments(index: nat)

  datatype Pending = Pending(id: Option<ToolCallId>, name: Option<ToolName>, arguments: Text, extensions: Extensions)

  const NO_CALL := Pending(None, None, [], map[])

  /** The configured maxima and the JSON reader. */
  datatype Limits = Limits(maxIndex: nat, maxExtensions: nat, maxText: nat, maxArguments: nat,
                           parse: Text -> Option<Json>)

  datatype Phase = Active | Done | Failed

  datatype Collected = Collected(
    phase: Phase,
    started: Option<Started>,
    text: Text,
    toolCalls: map<nat, Pending>,
    usage: Option<TokenUsage>,
    finishReason: Option<FinishReason>)

  const EMPTY := Collected(Active, None, [], map[], None, None)

  // ---- one event ----

  function CallOf(toolCalls: map<nat, Pending>, index: nat): Pending {
    if index in toolCalls then toolCalls[index] else NO_CALL
  }

  /** When a fragment may follow what its index has so far. */
  ghost predicate CallAccepts(limits: Limits, call: Pending, d: ToolCallDelta) {
    && d.index <= limits.maxIndex
    && !(d.id.Some? && call.id.Some?) && !(d.name.Some? && call.name.Some?)
    && |call.arguments| + |d.arguments| <= limits.maxArguments
    && Compatible(call.extensions, d.extensions)
    && |Merged(call.extensions, d.extensions)| <= limits.maxExtensions
  }

  function CallAfter(call: Pending, d: ToolCallDelta): Pending {
    Pending(if d.id.Some? then d.id else call.id, if d.name.Some? then d.name else call.name,
            call.arguments + d.arguments, Merged(call.extensions, d.extensions))
  }

  predicate CallComplete(limits: Limits, call: Pending) {
    call.id.Some? && call.name.Some? && limits.parse(call.arguments).Some?
  }

  predicate AllComplete(limits: Limits, toolCalls: map<nat, Pending>) {
    forall index :: index in toolCalls ==> CallComplete(limits, toolCalls[index])
  }

  /** When an active collector accepts an event. */
  ghost predicate Accepts(limits: Limits, c: Collected, e: Event) {
    match e
    case ResponseStarted(_) => c.started.None?
    case TextDelta(delta) => |c.text| + |delta| <= limits.maxText
    case ToolDelta(d) => CallAccepts(limits, CallOf(c.toolCalls, d.index), d)
    case Usage(u) => c.usage.Some? ==> Mergeable(c.usage.value, u)
    case Finished(_) => AllComplete(limits, c.toolCalls)
  }

  function Applied(c: Collected, e: Event): Collected {
    match e
    case ResponseStarted(started) => c.(started := Some(started))
    case TextDelta(delta) => c.(text := c.text + delta)
    case ToolDelta(d) => c.(toolCalls := c.toolCalls[d.index := CallAfter(CallOf(c.toolCalls, d.index), d)])
    case Usage(u) => c.(usage := Some(if c.usage.Some? then MergedUsage(c.usage.value, u) else u))
    case Finished(reason) => c.(phase := Done, finishReason := Some(reason))
  }

  /** All or nothing: an accepted event applies whole, a rejected one only poisons,
      and nothing moves a finished or failed collector. */
  ghost function Pushed(limits: Limits, c: Collected, e: Event): Collected {
    if c.phase != Active then c
    else if Accepts(limits, c, e) then Applied(c, e)
    else c.(phase := Failed)
  }

  /** Why an active collector rejects an event. */
  ghost predicate RejectedBecause(limits: Limits, c: Collected, e: Event, error: ProtocolError) {
    match error
    case DuplicateResponseStarted => e.ResponseStarted? && c.started.Some?
    case TextLimitExceeded => e.TextDelta? && |c.text| + |e.delta| > limits.maxText
    case InvalidUsage(fault) => e.Usage? && c.usage.Some? && UsageRefused(c.usage.value, e.usage, fault)
    case MissingToolCallId(_) => e.Finished? && RejectedAtEnd(limits, c.toolCalls, error)
    case MissingToolCallName(_) => e.Finished? && RejectedAtEnd(limits, c.toolCalls, error)
    case InvalidToolArguments(_) => e.Finished? && RejectedAtEnd(limits, c.toolCalls, error)
    case _ => e.ToolDelta? && FragmentRejected(limits, CallOf(c.toolCalls, e.tool.index), e.tool, error)
  }

  /** The lowest index whose call is not complete. */
  ghost predicate FirstIncomplete(limits: Limits, toolCalls: map<nat, Pending>, index: nat) {
    && index in toolCalls && !CallComplete(limits, toolCalls[index])
    && forall i :: i in toolCalls && i < index ==> CallComplete(limits, toolCalls[i])
  }

  /** What is missing from it. */
  ghost predicate RejectedAtEnd(limits: Limits, toolCalls: map<nat, Pending>, error: ProtocolError) {
    match error
    case MissingToolCallId(index) => FirstIncomplete(limits, toolCalls, index) && toolCalls[index].id.None?
    case MissingToolCallName(index) =>
      FirstIncomplete(limits, toolCalls, index) && toolCalls[index].id.Some? && toolCalls[index].name.None?
    case InvalidToolArguments(index) =>
      FirstIncomplete(limits, toolCalls, index) && toolCalls[index].id.Some? && toolCalls[index].name.Some?
    case _ => false
  }

  /** The index is in range and neither field is there twice. */
  predicate FieldsFree(limits: Limits, call: Pending, d: ToolCallDelta) {
    d.index <= limits.maxIndex && !(d.id.Some? && call.id.Some?) && !(d.name.Some? && call.name.Some?)
  }

  /** The first check a fragment fails. */
  ghost predicate FragmentRejected(limits: Limits, call: Pending, d: ToolCallDelta, error: ProtocolError) {
    match error
    case ToolCallIndexTooLarge(index) => index == d.index && d.index > limits.maxIndex
    case DuplicateToolCallField(index, IdField) =>
      index == d.index && d.index <= limits.maxIndex && d.id.Some? && call.id.Some?
    case DuplicateToolCallField(index, NameField) =>
      && index == d.index && d.index <= limits.maxIndex
      && d.name.Some? && call.name.Some? && !(d.id.Some? && call.id.Some?)
    case ToolArgumentsLimitExceeded(index) =>
      index == d.index && FieldsFree(limits, call, d) && |call.arguments| + |d.arguments| > limits.maxArguments
    case ConflictingToolCallExtension(index, conflict) =>
      && index == d.index && FieldsFree(limits, call, d) && |call.arguments| + |d.arguments| <= limits.maxArguments
      && Clashes(call.extensions, d.extensions, conflict.key)
      && forall key :: Clashes(call.extensions, d.extensions, key) ==> TextLe(conflict.key, key)
    case ExtensionLimitExceeded(index) =>
      && index == d.index && FieldsFree(limits, call, d) && |call.arguments| + |d.arguments| <= limits.maxArguments
      && Compatible(call.extensions, d.extensions)
      && |Merged(call.extensions, d.extensions)| > limits.maxExtensions
    case _ => false
  }

  // ---- the collector ----

  datatype ToolCall = ToolCall(id: ToolCallId, name: ToolName, arguments: Json, extensions: Extensions)

  datatype ChatResponse = ChatResponse(text: Text, calls: seq<ToolCall>, reason: FinishReason,
                                       usage: Option<TokenUsage>, started: Option<Started>)

  function Built(limits: Limits, call: Pending): ToolCall
    requires CallComplete(limits, call)
  {
    ToolCall(call.id.value, call.name.value, limits.parse(call.arguments).value, call.extensions)
  }

  /** Complete calls in index order, below a bound. */
  function CallsBelow(limits: Limits, toolCalls: map<nat, Pending>, bound: nat): seq<ToolCall>
    requires AllComplete(limits, toolCalls)
  {
    if bound == 0 then []
    else
      CallsBelow(limits, toolCalls, bound - 1)
      + (if bound - 1 in toolCalls then [Built(limits, toolCalls[bound - 1])] else [])
  }

  ghost predicate WithinIndex(limits: Limits, toolCalls: map<nat, Pending>) {
    forall index :: index in toolCalls ==> index <= limits.maxIndex
  }

  /** The response a finished collector holds. */
  ghost function ResponseOf(limits: Limits, c: Collected): ChatResponse
    requires c.phase.Done? && c.finishReason.Some? && AllComplete(limits, c.toolCalls)
  {
    ChatResponse(c.text, CallsBelow(limits, c.toolCalls, limits.maxIndex + 1), c.finishReason.value, c.usage, c.started)
  }

  class ChatStreamCollector {
    const limits: Limits
    var phase: Phase
    var started: Option<Started>
    var text: Text
    var toolCalls: map<nat, Pending>
    var usage: Option<TokenUsage>
    var finishReason: Option<FinishReason>

    function State(): Collected
      reads this
    {
      Collected(phase, started, text, toolCalls, usage, finishReason)
    }

    /** A finished collector has everything `finish` needs. */
    ghost predicate Valid()
      reads this
    {
      && WithinIndex(limits, toolCalls)
      && (phase.Done? ==> finishReason.Some? && AllComplete(limits, toolCalls))
    }

    constructor (limits: Limits)
      ensures this.limits == limits && State() == EMPTY && Valid()
    {
      this.limits := limits;
      phase, started, text, toolCalls, usage, finishReason := Active, None, [], map[], None, None;
    }

    method Push(e: Event) returns (error: Option<ProtocolError>)
      requires Valid()
      modifies this
      ensures Valid() && State() == Pushed(limits, old(State()), e)
      ensures error.None? <==> old(phase).Active? && Accepts(limits, old(State()), e)
      ensures old(phase).Active? && error.Some? ==> RejectedBecause(limits, old(State()), e, error.value)
      ensures old(phase).Failed? ==> error == Some(CollectorAlreadyFailed)
      ensures old(phase).Done? ==> error == Some(EventAfterFinished)
    {
      if phase.Failed? { return Some(CollectorAlreadyFailed); }
      if phase.Done? { return Some(EventAfterFinished); }
      error := PushActive(e);
      if error.Some? { phase := Failed; }
    }

    method PushActive(e: Event) returns (error: Option<ProtocolError>)
      requires Valid() && phase.Active?
      modifies this
      ensures Valid() && (error.None? <==> Accepts(limits, old(State()), e))
      ensures error.Some? ==> RejectedBecause(limits, old(State()), e, error.value)
      ensures State() == if error.None? then Applied(old(State()), e) else old(State())
    {
      error := None;
      match e
      case ResponseStarted(metadata) =>
        if started.Some? { return Some(DuplicateResponseStarted); }
        started := Some(metadata);
      case TextDelta(delta) =>
        if |text| + |delta| > limits.maxText { return Some(TextLimitExceeded); }
        text := text + delta;
      case ToolDelta(d) =>
        error := PushToolDelta(d);
      case Usage(snapshot) =>
        if usage.Some? {
          var merged, fault := MergeSnapshot(usage.value, snapshot);
          if fault.Some? { return Some(InvalidUsage(fault.value)); }
          usage := Some(merged);
        } else {
          usage := Some(snapshot);
        }
      case Finished(reason) =>
        error := ValidateFinished();
        if error.Some? { return; }
        finishReason := Some(reason);
        phase := Done;
    }

    /** The last checks of a fragment: its extensions. */
    method CheckExtensions(call: Pending, d: ToolCallDelta) returns (error: Option<ProtocolError>)
      requires FieldsFree(limits, call, d) && |call.arguments| + |d.arguments| <= limits.maxArguments
      ensures error.None? <==> CallAccepts(limits, call, d)
      ensures error.Some? ==> FragmentRejected(limits, call, d, error.value)
    {
      hide Compatible, Merged, Clashes, TextLe;
      var newKeys := ValidateIdempotentMerge(call.extensions, d.extensions);
      if newKeys.Err? { return Some(ConflictingToolCallExtension(d.index, newKeys.error)); }
      MergedSize(call.extensions, d.extensions);
      if |call.extensions| + newKeys.value > limits.maxExtensions { return Some(ExtensionLimitExceeded(d.index)); }
      error := None;
    }

    /** Checks every field of the fragment before touching the call. */
    method PushToolDelta(d: ToolCallDelta) returns (error: Option<ProtocolError>)
      requires Valid() && phase.Active?
      modifies this`toolCalls
      ensures Valid() && (error.None? <==> CallAccepts(limits, CallOf(old(toolCalls), d.index), d))
      ensures error.Some? ==> FragmentRejected(limits, CallOf(old(toolCalls), d.index), d, error.value)
      ensures State() == if error.None? then Applied(old(State()), ToolDelta(d)) else old(State())
    {
      hide Compatible, Merged, Clashes, TextLe, CallComplete, AllComplete;
      if d.index > limits.maxIndex { return Some(ToolCallIndexTooLarge(d.index)); }
      var call := CallOf(toolCalls, d.index);
      if d.id.Some? && call.id.Some? { return Some(DuplicateToolCallField(d.index, IdField)); }
      if d.name.Some? && call.name.Some? { return Some(DuplicateToolCallField(d.index, NameField)); }
      if |call.arguments| + |d.arguments| > limits.maxArguments { return Some(ToolArgumentsLimitExceeded(d.index)); }
      error := CheckExtensions(call, d);
      if error.Some? { return; }
      var extensions := CommitIdempotentMerge(call.extensions, d.extensions);
      var id := if d.id.Some? then d.id else call.id;
      var name := if d.name.Some? then d.name else call.name;
      toolCalls := toolCalls[d.index := Pending(id, name, call.arguments + d.arguments, extensions)];
    }

    /** The first incomplete call in index order. */
    method ValidateFinished() returns (error: Option<ProtocolError>)
      requires Valid()
      ensures error.None? <==> AllComplete(limits, toolCalls)
      ensures error.Some? ==> RejectedAtEnd(limits, toolCalls, error.value)
    {
      for index := 0 to limits.maxIndex + 1
        invariant forall i :: 0 <= i < index && i in toolCalls ==> CallComplete(limits, toolCalls[i])
      {
        if index in toolCalls {
          var call := toolCalls[index];
          if call.id.None? { return Some(MissingToolCallId(index)); }
          if call.name.None? { return Some(MissingToolCallName(index)); }
          if limits.parse(call.arguments).None? { return Some(InvalidToolArguments(index)); }
        }
      }
      error := None;
    }

    /** After an accepted end event this cannot fail. */
    method Finish() returns (r: Result<ChatResponse, ProtocolError>)
      requires Valid()
      ensures phase.Done? ==> r == Ok(ResponseOf(limits, State()))
      ensures phase.Active? ==> r == Err(MissingFinished)
      ensures phase.Failed? ==> r == Err(CollectorAlreadyFailed)
    {
      if phase.Failed? { return Err(CollectorAlreadyFailed); }
      if phase.Active? { return Err(MissingFinished); }
      var calls := [];
      for index := 0 to limits.maxIndex + 1
        invariant calls == CallsBelow(limits, toolCalls, index)
      {
        if index in toolCalls {
          var call := toolCalls[index];
          var arguments := limits.parse(call.arguments).value;
          calls := calls + [ToolCall(call.id.value, call.name.value, arguments, call.extensions)];
        }
      }
      r := Ok(ChatResponse(text, calls, finishReason.value, usage, started));
    }
  }

  // ---- whole streams ----

  ghost function PushedAll(limits: Limits, events: seq<Event>): Collected {
    if events == [] then EMPTY
    else Pushed(limits, PushedAll(limits, events[..|events| - 1]), events[|events| - 1])
  }

  /** Every event accepted. */
  ghost predicate AllAccepted(limits: Limits, events: seq<Event>) {
    events != [] ==>
      && AllAccepted(limits, events[..|events| - 1])
      && PushedAll(limits, events[..|events| - 1]).phase.Active?
      && Accepts(limits, PushedAll(limits, events[..|events| - 1]), events[|events| - 1])
  }

  lemma {:induction false} RejectionIsFinal(limits: Limits, events: seq<Event>, n: nat)
    requires n <= |events| && !AllAccepted(limits, events[..n])
    ensures !AllAccepted(limits, events)
    decreases |events|
  {
    if n < |events| {
      assert events[..|events| - 1][..n] == events[..n];
      RejectionIsFinal(limits, events[..|events| - 1], n);
    } else {
      assert events[..n] == events;
    }
  }
}
