/** The collector depends only on the order inside each channel of a stream
    (crates/group-agent-model/src/stream.rs:322-530). */
module CollectorChannels {
  import opened Collector

  /** What an event belongs to: response metadata, text, one tool index, usage or
      the end marker. */
  datatype Channel = StartChannel | TextChannel | ToolChannel(index: nat) | UsageChannel | EndChannel

  function ChannelOf(e: Event): Channel {
    match e
    case ResponseStarted(_) => StartChannel
    case TextDelta(_) => TextChannel
    case ToolDelta(d) => ToolChannel(d.index)
    case Usage(_) => UsageChannel
    case Finished(_) => EndChannel
  }

  /** The events of one channel, in stream order. */
  function On(ch: Channel, events: seq<Event>): seq<Event> {
    if events == [] then []
    else
      On(ch, events[..|events| - 1])
      + (if ChannelOf(events[|events| - 1]) == ch then [events[|events| - 1]] else [])
  }

  ghost predicate SameChannels(a: seq<Event>, b: seq<Event>) {
    forall ch :: On(ch, a) == On(ch, b)
  }

  predicate Endless(events: seq<Event>) {
    forall k :: 0 <= k < |events| ==> !events[k].Finished?
  }

  /** The end marker comes once, last. */
  predicate EndsLast(events: seq<Event>) {
    events != [] && events[|events| - 1].Finished? && Endless(events[..|events| - 1])
  }

  // ---- one channel's part of a collector ----

  function Slice(c: Collected, ch: Channel): Collected {
    match ch
    case StartChannel => EMPTY.(started := c.started)
    case TextChannel => EMPTY.(text := c.text)
    case ToolChannel(i) => EMPTY.(toolCalls := if i in c.toolCalls then map[i := c.toolCalls[i]] else map[])
    case UsageChannel => EMPTY.(usage := c.usage)
    case EndChannel => EMPTY
  }

  lemma AcceptanceIsLocal(limits: Limits, c: Collected, e: Event)
    requires !e.Finished?
    ensures Accepts(limits, c, e) <==> Accepts(limits, Slice(c, ChannelOf(e)), e)
  {
  }

  lemma EffectIsLocal(c: Collected, e: Event, ch: Channel)
    requires !e.Finished?
    ensures Slice(Applied(c, e), ch) == if ChannelOf(e) == ch then Applied(Slice(c, ch), e) else Slice(c, ch)
  {
    if e.ToolDelta? && ch == ToolChannel(e.tool.index) {
      assert Slice(Applied(c, e), ch).toolCalls == Applied(Slice(c, ch), e).toolCalls;
    }
  }

  lemma OneMoreEvent(events: seq<Event>, e: Event, ch: Channel)
    ensures On(ch, events + [e]) == On(ch, events) + if ChannelOf(e) == ch then [e] else []
  {
    assert (events + [e])[..|events|] == events;
  }

  /** An accepted stream without end marker leaves the collector active. */
  lemma {:induction false} AcceptedStaysActive(limits: Limits, events: seq<Event>)
    requires Endless(events) && AllAccepted(limits, events)
    ensures PushedAll(limits, events).phase.Active? && PushedAll(limits, events).finishReason.None?
  {
    if events != [] { AcceptedStaysActive(limits, events[..|events| - 1]); }
  }

  lemma {:induction false} OnIsEndless(events: seq<Event>, ch: Channel)
    requires Endless(events)
    ensures Endless(On(ch, events))
  {
    if events != [] { OnIsEndless(events[..|events| - 1], ch); }
  }

  lemma AcceptedAppend(limits: Limits, events: seq<Event>, e: Event)
    ensures PushedAll(limits, events + [e]) == Pushed(limits, PushedAll(limits, events), e)
    ensures AllAccepted(limits, events + [e]) <==>
            && AllAccepted(limits, events) && PushedAll(limits, events).phase.Active?
            && Accepts(limits, PushedAll(limits, events), e)
  {
    assert (events + [e])[..|events|] == events;
  }

  /** A stream is accepted exactly when each of its channels is, alone, and every
      channel's part of the result is what that channel gives alone. */
  lemma {:induction false} AcceptedByChannel(limits: Limits, events: seq<Event>)
    requires Endless(events)
    ensures AllAccepted(limits, events) <==> forall ch :: AllAccepted(limits, On(ch, events))
    ensures AllAccepted(limits, events) ==>
              forall ch :: Slice(PushedAll(limits, events), ch) == PushedAll(limits, On(ch, events))
  {
    hide Accepts, Applied;
    if events == [] {
      assert forall ch :: On(ch, events) == [];
      SliceOfEmpty();
    } else {
      var front, e := events[..|events| - 1], events[|events| - 1];
      var ch0 := ChannelOf(e);
      assert events == front + [e];
      AcceptedByChannel(limits, front);
      AcceptedAppend(limits, front, e);
      AcceptedAppend(limits, On(ch0, front), e);
      forall ch ensures On(ch, events) == On(ch, front) + if ChannelOf(e) == ch then [e] else [] {
        OneMoreEvent(front, e, ch);
      }
      assert forall ch :: ch != ch0 ==> On(ch, events) == On(ch, front);
      if AllAccepted(limits, front) {
        AcceptedStaysActive(limits, front);
        var c := PushedAll(limits, front);
        AcceptanceIsLocal(limits, c, e);
        assert Slice(c, ch0) == PushedAll(limits, On(ch0, front));
        OnIsEndless(front, ch0);
        AcceptedStaysActive(limits, On(ch0, front));
        if Accepts(limits, c, e) {
          forall ch ensures Slice(PushedAll(limits, events), ch) == PushedAll(limits, On(ch, events)) {
            EffectIsLocal(c, e, ch);
            assert Slice(c, ch) == PushedAll(limits, On(ch, front));
          }
          forall ch ensures AllAccepted(limits, On(ch, events)) {
            assert AllAccepted(limits, On(ch, front));
            if ch == ch0 { assert On(ch, events) == On(ch0, front) + [e]; }
          }
        } else {
          assert On(ch0, events) == On(ch0, front) + [e];
          assert !AllAccepted(limits, On(ch0, events));
        }
      } else {
        var ch :| !AllAccepted(limits, On(ch, front));
        if ch == ch0 { assert On(ch, events) == On(ch0, front) + [e]; }
        assert !AllAccepted(limits, On(ch, events));
      }
    }
  }

  lemma SliceOfEmpty()
    ensures forall ch :: Slice(EMPTY, ch) == EMPTY
  {
  }

  lemma SlicesDetermine(a: Collected, b: Collected)
    requires a.phase == b.phase && a.finishReason == b.finishReason
    requires forall ch :: Slice(a, ch) == Slice(b, ch)
    ensures a == b
  {
    assert Slice(a, StartChannel) == Slice(b, StartChannel);
    assert Slice(a, TextChannel) == Slice(b, TextChannel);
    assert Slice(a, UsageChannel) == Slice(b, UsageChannel);
    forall i
      ensures (i in a.toolCalls <==> i in b.toolCalls) && (i in a.toolCalls ==> a.toolCalls[i] == b.toolCalls[i])
    {
      assert Slice(a, ToolChannel(i)) == Slice(b, ToolChannel(i));
      assert i in a.toolCalls <==> i in Slice(a, ToolChannel(i)).toolCalls;
    }
    assert a.toolCalls == b.toolCalls;
  }

  lemma {:induction false} OnEnd(events: seq<Event>)
    requires Endless(events)
    ensures On(EndChannel, events) == []
  {
    if events != [] { OnEnd(events[..|events| - 1]); }
  }

  lemma AcceptedAlike(limits: Limits, a: seq<Event>, b: seq<Event>)
    requires Endless(a) && Endless(b) && SameChannels(a, b) && AllAccepted(limits, a)
    ensures AllAccepted(limits, b)
    ensures forall ch :: Slice(PushedAll(limits, a), ch) == Slice(PushedAll(limits, b), ch)
  {
    hide AllAccepted, Slice, PushedAll;
    AcceptedByChannel(limits, a);
    AcceptedByChannel(limits, b);
    forall ch ensures AllAccepted(limits, On(ch, b)) {
      assert On(ch, a) == On(ch, b);
      assert AllAccepted(limits, On(ch, a));
    }
    forall ch ensures Slice(PushedAll(limits, a), ch) == Slice(PushedAll(limits, b), ch) {
      assert On(ch, a) == On(ch, b);
      assert Slice(PushedAll(limits, a), ch) == PushedAll(limits, On(ch, a));
      assert Slice(PushedAll(limits, b), ch) == PushedAll(limits, On(ch, b));
    }
  }

  /** Two streams with the same order inside every channel, however the channels
      interleave: both are accepted or neither is, and they collect to the same
      response. */
  lemma ChannelsDecide(limits: Limits, a: seq<Event>, b: seq<Event>)
    requires EndsLast(a) && EndsLast(b) && SameChannels(a, b)
    ensures AllAccepted(limits, a) <==> AllAccepted(limits, b)
    ensures AllAccepted(limits, a) ==>
              PushedAll(limits, a) == PushedAll(limits, b) && PushedAll(limits, a).phase.Done?
  {
    hide Accepts, Slice, AllAccepted;
    var fa, ea, fb, eb := a[..|a| - 1], a[|a| - 1], b[..|b| - 1], b[|b| - 1];
    assert a == fa + [ea] && b == fb + [eb];
    OnEnd(fa);
    OnEnd(fb);
    OneMoreEvent(fa, ea, EndChannel);
    OneMoreEvent(fb, eb, EndChannel);
    assert On(EndChannel, a) == On(EndChannel, b);
    assert On(EndChannel, a) == [ea] && On(EndChannel, b) == [eb];
    assert [ea][0] == [eb][0];
    forall ch ensures On(ch, fa) == On(ch, fb) {
      OneMoreEvent(fa, ea, ch);
      OneMoreEvent(fb, eb, ch);
      assert On(ch, a) == On(ch, b);
      if ch != EndChannel { assert On(ch, fa) == On(ch, a) && On(ch, fb) == On(ch, b); }
    }
    AcceptedAppend(limits, fa, ea);
    AcceptedAppend(limits, fb, eb);
    if AllAccepted(limits, fa) { AcceptedAlike(limits, fa, fb); }
    if AllAccepted(limits, fb) { AcceptedAlike(limits, fb, fa); }
    if AllAccepted(limits, fa) {
      AcceptedStaysActive(limits, fa);
      AcceptedStaysActive(limits, fb);
      SlicesDetermine(PushedAll(limits, fa), PushedAll(limits, fb));
    }
  }

  /** Only streams that end in their one end marker are ever collected. */
  lemma {:induction false} CollectedEndsLast(limits: Limits, events: seq<Event>)
    requires AllAccepted(limits, events)
    ensures PushedAll(limits, events).phase.Done? <==> EndsLast(events)
    ensures PushedAll(limits, events).phase.Active? <==> Endless(events)
  {
    hide Accepts;
    if events != [] {
      var front := events[..|events| - 1];
      CollectedEndsLast(limits, front);
      assert events == front + [events[|events| - 1]];
    }
  }

  /** A rejected event changes no collected data, and the collector stays dead. */
  lemma {:induction false} RejectionPoisons(limits: Limits, c: Collected, e: Event, later: seq<Event>)
    requires c.phase.Active? && !Accepts(limits, c, e)
    ensures var dead := PushedFrom(limits, Pushed(limits, c, e), later);
            dead == c.(phase := Failed)
  {
    hide Accepts;
    if later != [] { RejectionPoisons(limits, c, e, later[..|later| - 1]); }
  }

  ghost function PushedFrom(limits: Limits, c: Collected, events: seq<Event>): Collected {
    if events == [] then c else Pushed(limits, PushedFrom(limits, c, events[..|events| - 1]), events[|events| - 1])
  }
}
