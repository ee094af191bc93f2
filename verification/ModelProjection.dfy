/** Projects one model stream into semantic events and collects its text and tool calls. */
module ModelProjection {
  import opened Prelude
  import opened Events
  import opened Json
  import Integrity
  import E = Emitter

  datatype LlmError = LlmCancelled | LlmFailure(contextRelated: bool)

  datatype ModelEvent =
    | ReasoningDelta(text: string)
    | TextDelta(text: string)
    | ToolCall(id: string, name: string, arguments: Json)
    | Usage

  /** What the receive loop wakes up for: a stream item, or a change of the cancellation flag. */
  datatype StreamItem = Received(event: ModelEvent) | StreamFailed(error: LlmError) | CancelChanged(cancelled: bool)

  datatype PendingToolCall = PendingToolCall(id: string, name: string, arguments: Json)

  datatype ModelRound = ModelRound(text: string, toolCalls: seq<PendingToolCall>, eventCount: nat)

  datatype ProjectionError = Cancelled | Llm(error: LlmError) | InvalidSequence | SemanticEventRejected

  // ---------- what a stream means ----------

  /** The events before the stream ends, fails, or is cancelled. */
  function Heard(items: seq<StreamItem>): seq<ModelEvent> {
    if items == [] then []
    else match items[0]
      case Received(e) => [e] + Heard(items[1..])
      case StreamFailed(_) => []
      case CancelChanged(now) => if now then [] else Heard(items[1..])
  }

  /** How the stream stops. */
  function Ending(items: seq<StreamItem>): Option<ProjectionError> {
    if items == [] then None
    else match items[0]
      case Received(_) => Ending(items[1..])
      case StreamFailed(error) => Some(Llm(error))
      case CancelChanged(now) => if now then Some(Cancelled) else Ending(items[1..])
  }

  function TextOf(events: seq<ModelEvent>): string {
    if events == [] then ""
    else TextOf(events[..|events| - 1]) + (if events[|events| - 1].TextDelta? then events[|events| - 1].text else "")
  }

  function ReasoningOf(events: seq<ModelEvent>): string {
    if events == [] then ""
    else
      var e := events[|events| - 1];
      ReasoningOf(events[..|events| - 1]) + (if e.ReasoningDelta? then e.text else "")
  }

  function CallsOf(events: seq<ModelEvent>): seq<PendingToolCall> {
    if events == [] then []
    else
      var e := events[|events| - 1];
      CallsOf(events[..|events| - 1])
      + (if e.ToolCall? then [PendingToolCall(e.id, e.name, e.arguments)] else [])
  }

  /** Some non-empty text has been heard. */
  predicate Spoken(events: seq<ModelEvent>) {
    exists i :: 0 <= i < |events| && events[i].TextDelta? && events[i].text != ""
  }

  predicate IsDelta(e: ModelEvent) {
    e.ReasoningDelta? || e.TextDelta?
  }

  /** Some reasoning or text has been heard. */
  predicate Opened(events: seq<ModelEvent>) {
    exists i :: 0 <= i < |events| && IsDelta(events[i])
  }

  /** The last delta heard is reasoning. */
  predicate Thinking(events: seq<ModelEvent>) {
    events != [] && (events[|events| - 1].ReasoningDelta?
                     || (!events[|events| - 1].TextDelta? && Thinking(events[..|events| - 1])))
  }

  /** Reasoning never resumes after text. */
  predicate WellOrdered(events: seq<ModelEvent>) {
    forall i | 0 <= i < |events| && events[i].ReasoningDelta? :: !Spoken(events[..i])
  }

  /** The events of one reasoning delta: it opens what is not open yet. */
  function ReasoningBodies(text: string, assistant: bool, thinking: bool): seq<EventBody> {
    (if assistant then [] else [AssistantStarted]) + (if thinking then [] else [ThinkingStarted])
    + [Events.ThinkingDelta(text)]
  }

  /** The events of one text delta: it ends the thinking that precedes it. */
  function TextBodies(text: string, assistant: bool, thinking: bool): seq<EventBody> {
    (if assistant then [] else [AssistantStarted]) + (if thinking then [ThinkingCompleted] else [])
    + [Events.AssistantDelta(text)]
  }

  /** The semantic events published for the model events, before the closing ones. */
  function Projected(events: seq<ModelEvent>): seq<EventBody> {
    if events == [] then []
    else
      var before, e := events[..|events| - 1], events[|events| - 1];
      Projected(before) + EventBodies(e, Opened(before), Thinking(before))
  }

  function EventBodies(e: ModelEvent, assistant: bool, thinking: bool): seq<EventBody> {
    match e
    case ReasoningDelta(text) => ReasoningBodies(text, assistant, thinking)
    case TextDelta(text) => TextBodies(text, assistant, thinking)
    case _ => []
  }

  /** The closing events: an assistant that hands over to a tool call yields silently. */
  function ClosingBodies(events: seq<ModelEvent>, silent: bool): seq<EventBody> {
    (if Thinking(events) then [ThinkingCompleted] else [])
    + (if Opened(events) && !silent then [AssistantCompleted] else [])
  }

  // ---------- what is heard of a stream ----------

  function Delivered(events: seq<ModelEvent>): seq<StreamItem> {
    seq(|events|, i requires 0 <= i < |events| => Received(events[i]))
  }

  /**
   * A stream is heard up to its end, its first failure or its first cancellation, whatever comes after that; a
   * cancellation flag that is not set says nothing.
   */
  lemma {:induction false} StreamIsHeard(events: seq<ModelEvent>, rest: seq<StreamItem>)
    ensures Heard(Delivered(events)) == events && Ending(Delivered(events)).None?
    ensures forall error :: Heard(Delivered(events) + [StreamFailed(error)] + rest) == events
                            && Ending(Delivered(events) + [StreamFailed(error)] + rest) == Some(Llm(error))
    ensures Heard(Delivered(events) + [CancelChanged(true)] + rest) == events
    ensures Ending(Delivered(events) + [CancelChanged(true)] + rest) == Some(Cancelled)
    ensures Heard(Delivered(events) + [CancelChanged(false)] + rest) == events + Heard(rest)
    ensures Ending(Delivered(events) + [CancelChanged(false)] + rest) == Ending(rest)
  {
    HeardAll(events);
    DeliveredThen(events, []);
    assert Delivered(events) + [] == Delivered(events);
    forall stop: StreamItem
      ensures Heard(Delivered(events) + [stop] + rest) == events + Heard([stop] + rest)
      ensures Ending(Delivered(events) + [stop] + rest) == Ending([stop] + rest)
      ensures ([stop] + rest)[0] == stop && ([stop] + rest)[1..] == rest
    {
      DeliveredThen(events, [stop] + rest);
      Associative(Delivered(events), [stop], rest);
    }
  }

  lemma {:induction false} DeliveredThen(events: seq<ModelEvent>, rest: seq<StreamItem>)
    ensures Heard(Delivered(events) + rest) == events + Heard(rest)
    ensures Ending(Delivered(events) + rest) == Ending(rest)
  {
    if events == [] {
      assert Delivered(events) + rest == rest;
      assert [] + Heard(rest) == Heard(rest);
    } else {
      var items := Delivered(events) + rest;
      DeliveredThen(events[1..], rest);
      assert items[0] == Received(events[0]) && items[1..] == Delivered(events[1..]) + rest;
      Associative([events[0]], events[1..], Heard(rest));
      assert [events[0]] + events[1..] == events;
    }
  }

  /** The text of a stream is that of its text deltas, joined; its reasoning likewise. */
  lemma {:induction false} TextIsJoined(events: seq<ModelEvent>)
    ensures TextOf(events) == Flatten(seq(|events|, i requires 0 <= i < |events| => TextIn(events[i])))
    ensures ReasoningOf(events) == Flatten(seq(|events|, i requires 0 <= i < |events| => ThoughtIn(events[i])))
  {
    if events != [] {
      var n := |events| - 1;
      var before := events[..n];
      TextIsJoined(before);
      var texts := seq(|before|, i requires 0 <= i < |before| => TextIn(before[i]));
      var thoughts := seq(|before|, i requires 0 <= i < |before| => ThoughtIn(before[i]));
      FlattenSnoc(texts, TextIn(events[n]));
      FlattenSnoc(thoughts, ThoughtIn(events[n]));
      assert seq(|events|, i requires 0 <= i < |events| => TextIn(events[i])) == texts + [TextIn(events[n])];
      assert seq(|events|, i requires 0 <= i < |events| => ThoughtIn(events[i])) == thoughts + [ThoughtIn(events[n])];
    }
  }

  /** The calls of a stream as the events that they came from. */
  function AsEvents(calls: seq<PendingToolCall>): seq<ModelEvent> {
    seq(|calls|, i requires 0 <= i < |calls| => ToolCall(calls[i].id, calls[i].name, calls[i].arguments))
  }

  function OnlyCalls(events: seq<ModelEvent>): seq<ModelEvent> {
    if events == [] then []
    else (if events[0].ToolCall? then [events[0]] else []) + OnlyCalls(events[1..])
  }

  /** Every call of a stream is collected, with its identity, name and arguments, in order, and nothing else. */
  lemma {:induction false} CallsAreCollected(events: seq<ModelEvent>)
    ensures AsEvents(CallsOf(events)) == OnlyCalls(events)
  {
    if events != [] {
      var before, e := events[..|events| - 1], events[|events| - 1];
      CallsAreCollected(before);
      OnlyCallsSnoc(before, e);
      assert events == before + [e];
    }
  }

  lemma {:induction false} OnlyCallsSnoc(events: seq<ModelEvent>, e: ModelEvent)
    ensures OnlyCalls(events + [e]) == OnlyCalls(events) + if e.ToolCall? then [e] else []
  {
    var longer := events + [e];
    if events == [] {
      assert longer[1..] == [];
    } else {
      assert longer[0] == events[0] && longer[1..] == events[1..] + [e];
      OnlyCallsSnoc(events[1..], e);
    }
  }

  // ---------- what the client sees of a stream ----------

  /** These events show this text and this reasoning, and the assistant starts in them or not. */
  ghost predicate Shows(bodies: seq<EventBody>, text: string, thought: string, starts: bool) {
    && TextShown(bodies) == text && ThoughtShown(bodies) == thought && LastSaid(bodies) == text
    && (Starts(bodies) <==> starts)
  }

  lemma ShowsAppend(a: seq<EventBody>, b: seq<EventBody>, text: string, thought: string, starts: bool,
                    text': string, thought': string, starts': bool)
    requires Shows(a, text, thought, starts) && Shows(b, text', thought', starts')
    requires !(starts && starts') && (starts' ==> text == "")
    ensures Shows(a + b, text + text', thought + thought', starts || starts')
  {
    ShownAppend(a, b);
    StartsAppend(a, b);
    assert "" + text' == text';
  }

  lemma {:induction false} OpenersShowNothing(bodies: seq<EventBody>)
    requires forall b | b in bodies :: !b.AssistantDelta? && !b.ThinkingDelta?
    ensures TextShown(bodies) == "" && ThoughtShown(bodies) == "" && LastSaid(bodies) == ""
  {
    if bodies != [] { OpenersShowNothing(bodies[..|bodies| - 1]); }
  }

  /** Openers in front of a delta show nothing. */
  lemma DeltaShows(openers: seq<EventBody>, delta: EventBody)
    requires forall b | b in openers :: !b.AssistantDelta? && !b.ThinkingDelta?
    requires !delta.AssistantStarted?
    ensures Shows(openers + [delta], if delta.AssistantDelta? then delta.text else "",
                  if delta.ThinkingDelta? then delta.text else "", Starts(openers))
  {
    OpenersShowNothing(openers);
    ShownSnoc(openers, delta);
    StartsSnoc(openers, delta);
    NothingBefore(if delta.AssistantDelta? then delta.text else "");
    NothingBefore(if delta.ThinkingDelta? then delta.text else "");
  }

  lemma NothingBefore(text: string)
    ensures "" + text == text
  {
  }

  function TextIn(e: ModelEvent): string {
    if e.TextDelta? then e.text else ""
  }

  function ThoughtIn(e: ModelEvent): string {
    if e.ReasoningDelta? then e.text else ""
  }

  /** What opens the scopes of a delta. */
  lemma OpenersStart(opener: seq<EventBody>, thought: seq<EventBody>, assistant: bool)
    requires opener == (if assistant then [] else [AssistantStarted])
    requires thought == [] || thought == [ThinkingStarted] || thought == [ThinkingCompleted]
    ensures Starts(opener + thought) <==> !assistant
    ensures forall b | b in opener + thought :: !b.AssistantDelta? && !b.ThinkingDelta?
  {
    assert !assistant ==> (opener + thought)[0] == AssistantStarted;
  }

  /** The events of one delta show it, and the assistant starts in them exactly if it was not speaking. */
  lemma BodiesShow(e: ModelEvent, assistant: bool, thinking: bool)
    requires IsDelta(e)
    ensures Shows(EventBodies(e, assistant, thinking), TextIn(e), ThoughtIn(e), !assistant)
  {
    var opener := if assistant then [] else [AssistantStarted];
    var thought := if e.TextDelta? then if thinking then [ThinkingCompleted] else []
                   else if thinking then [] else [ThinkingStarted];
    OpenersStart(opener, thought, assistant);
    DeltaShows(opener + thought, if e.TextDelta? then Events.AssistantDelta(e.text) else Events.ThinkingDelta(e.text));
  }

  lemma NothingIsShown()
    ensures Shows([], "", "", false)
  {
  }

  /**
   * What a stream makes the client see: its text as assistant text and its reasoning as thinking, complete and in
   * order. The assistant starts once, if anything was heard, so the text is that since its last start.
   */
  lemma {:induction false} ProjectedShows(events: seq<ModelEvent>)
    ensures Shows(Projected(events), TextOf(events), ReasoningOf(events), Opened(events))
  {
    if events == [] {
      NothingIsShown();
    } else {
      var before, e := events[..|events| - 1], events[|events| - 1];
      assert events == before + [e];
      ProjectedShows(before);
      NothingHeard(before);
      OneMoreShows(before, e);
    }
  }

  lemma OneMoreShows(before: seq<ModelEvent>, e: ModelEvent)
    requires Shows(Projected(before), TextOf(before), ReasoningOf(before), Opened(before))
    requires !Opened(before) ==> TextOf(before) == ""
    ensures var events := before + [e];
      Shows(Projected(events), TextOf(events), ReasoningOf(events), Opened(events))
  {
    SpokenSnoc(before, e);
    HeardOneMore(before, e);
    var bodies := EventBodies(e, Opened(before), Thinking(before));
    if IsDelta(e) { BodiesShow(e, Opened(before), Thinking(before)); } else { NothingIsShown(); }
    ShowsAppend(Projected(before), bodies, TextOf(before), ReasoningOf(before), Opened(before),
                TextIn(e), ThoughtIn(e), IsDelta(e) && !Opened(before));
  }

  lemma HeardOneMore(before: seq<ModelEvent>, e: ModelEvent)
    ensures var events := before + [e];
      && Projected(events) == Projected(before) + EventBodies(e, Opened(before), Thinking(before))
      && TextOf(events) == TextOf(before) + TextIn(e) && ReasoningOf(events) == ReasoningOf(before) + ThoughtIn(e)
  {
    assert (before + [e])[..|before|] == before;
  }

  lemma StartsAppend(a: seq<EventBody>, b: seq<EventBody>)
    ensures Starts(a + b) <==> Starts(a) || Starts(b)
  {
    if Starts(a) {
      var i :| 0 <= i < |a| && a[i].AssistantStarted?;
      assert (a + b)[i] == a[i];
    }
    if Starts(b) {
      var i :| 0 <= i < |b| && b[i].AssistantStarted?;
      assert (a + b)[|a| + i] == b[i];
    }
  }

  lemma {:induction false} NothingHeard(events: seq<ModelEvent>)
    ensures !Opened(events) ==> TextOf(events) == ""
  {
    if events != [] {
      var before, e := events[..|events| - 1], events[|events| - 1];
      NothingHeard(before);
      assert events == before + [e];
      SpokenSnoc(before, e);
    }
  }

  lemma ClosingShowsNothing(heard: seq<ModelEvent>, silent: bool)
    ensures Shows(ClosingBodies(heard, silent), "", "", false)
  {
    OpenersShowNothing(ClosingBodies(heard, silent));
  }

  /** The same with the closing events, behind any word. */
  lemma RoundShows(word: seq<EventBody>, heard: seq<ModelEvent>, silent: bool)
    ensures var after := word + RoundBodies(heard, silent);
      && TextShown(after) == TextShown(word) + TextOf(heard)
      && ThoughtShown(after) == ThoughtShown(word) + ReasoningOf(heard)
      && (Opened(heard) ==> LastSaid(after) == TextOf(heard))
  {
    RoundShowsAll(heard, silent);
    ShownAppend(word, RoundBodies(heard, silent));
  }

  lemma RoundShowsAll(heard: seq<ModelEvent>, silent: bool)
    ensures Shows(RoundBodies(heard, silent), TextOf(heard), ReasoningOf(heard), Opened(heard))
  {
    ProjectedShows(heard);
    ClosingShowsNothing(heard, silent);
    ShowsAppend(Projected(heard), ClosingBodies(heard, silent), TextOf(heard), ReasoningOf(heard), Opened(heard),
                "", "", false);
    assert TextOf(heard) + "" == TextOf(heard) && ReasoningOf(heard) + "" == ReasoningOf(heard);
  }

  lemma {:induction false} NotCompletedYet(heard: seq<ModelEvent>)
    ensures AssistantCompleted !in Projected(heard)
  {
    if heard != [] {
      var before, e := heard[..|heard| - 1], heard[|heard| - 1];
      NotCompletedYet(before);
      assert AssistantCompleted !in EventBodies(e, Opened(before), Thinking(before));
    }
  }

  /** The client sees the assistant complete exactly at the end of a round that said something and calls no tool. */
  lemma AnswerCompletesExactlyWhen(heard: seq<ModelEvent>, silent: bool)
    ensures var w := RoundBodies(heard, silent);
      && (AssistantCompleted in w <==> Opened(heard) && !silent)
      && forall i | 0 <= i < |w| && w[i] == AssistantCompleted :: i == |w| - 1
  {
    NotCompletedYet(heard);
    var w, n := RoundBodies(heard, silent), |Projected(heard)|;
    assert forall i | 0 <= i < n :: w[i] == Projected(heard)[i];
    assert Opened(heard) && !silent ==> w[|w| - 1] == AssistantCompleted;
  }

  // ---------- driving the sink ----------

  /** A sink whose client listens. */
  predicate Live(sink: E.TurnEventEmitter)
    reads sink, sink.bus
  {
    sink.Answer() == E.CONNECTED
  }

  /** A client that has left stays away. */
  twostate predicate OneWay(sink: E.TurnEventEmitter)
    reads sink, sink.bus
  {
    sink.Valid() && (Live(sink) ==> old(Live(sink)))
  }

  /** Time passes: the client may leave, and does not come back. */
  method Wait(sink: E.TurnEventEmitter)
    requires sink.Valid()
    modifies sink.bus
    ensures OneWay(sink) && sink.View() == old(sink.View())
  {
    var leaves: bool := *;
    if leaves { sink.bus.Depart(sink.turnId); }
  }

  /** The run `r` is `r0` after publishing `bodies`, with the text scopes as given. */
  ghost predicate Reached(r: E.Run, r0: E.Run, bodies: seq<EventBody>, assistant: bool, thinking: bool, work: bool) {
    && r.word == r0.word + bodies
    && r.state.bindings == r0.state.bindings && r.state.seen == r0.state.seen
    && r.state.integrity == r0.state.integrity.(assistant := assistant, thinking := thinking, workStarted := work)
  }

  /** Only a beginning of `bodies` was published. */
  ghost predicate CutShort(r: E.Run, r0: E.Run, bodies: seq<EventBody>) {
    exists k :: 0 <= k <= |bodies| && r.word == r0.word + bodies[..k]
  }

  lemma CutAfter(r: E.Run, r0: E.Run, done: seq<EventBody>, bodies: seq<EventBody>)
    requires done <= bodies && r.word == r0.word + done
    ensures CutShort(r, r0, bodies)
  {
    assert bodies[..|done|] == done;
  }

  lemma CutLater(r: E.Run, r1: E.Run, r0: E.Run, done: seq<EventBody>, bodies: seq<EventBody>)
    requires CutShort(r, r1, bodies) && r1.word == r0.word + done
    ensures CutShort(r, r0, done + bodies)
  {
    var k :| 0 <= k <= |bodies| && r.word == r1.word + bodies[..k];
    Associative(r0.word, done, bodies[..k]);
    assert (done + bodies)[..|done| + k] == done + bodies[..k];
  }

  lemma CutMore(r: E.Run, r0: E.Run, bodies: seq<EventBody>, rest: seq<EventBody>)
    requires CutShort(r, r0, bodies)
    ensures CutShort(r, r0, bodies + rest)
  {
    var k :| 0 <= k <= |bodies| && r.word == r0.word + bodies[..k];
    assert (bodies + rest)[..k] == bodies[..k];
  }

  lemma CutAtOnce(r: E.Run, bodies: seq<EventBody>)
    ensures CutShort(r, r, bodies)
  {
    assert r.word + [] == r.word;
    CutAfter(r, r, [], bodies);
  }

  /** The local flags of the loop agree with the sink. */
  ghost predicate Agrees(i: Integrity.State, assistant: bool, thinking: bool) {
    i.phase.Active? && i.assistant == assistant && i.thinking == thinking && (thinking ==> assistant)
  }

  /** The turn goes on. */
  twostate predicate Stepped(sink: E.TurnEventEmitter)
    reads sink, sink.bus, sink.integrity
  {
    OneWay(sink) && sink.View().state.integrity.phase == old(sink.View()).state.integrity.phase
  }

  // Each step below is accepted while the client listens. If it leaves meanwhile, the step changes nothing.

  method OpenAssistant(sink: E.TurnEventEmitter, active: bool) returns (ok: bool)
    requires sink.Valid()
    modifies sink, sink.bus
    ensures Stepped(sink)
    ensures !ok ==> sink.View() == old(sink.View())
    ensures var i := old(sink.View().state.integrity);
      i.phase.Active? && i.assistant == active && (i.thinking ==> active) ==>
        if ok then
          Reached(sink.View(), old(sink.View()), if active then [] else [AssistantStarted], true, i.thinking,
                  active ==> i.workStarted)
        else !Live(sink)
  {
    if active { return true; }
    Wait(sink);
    ok := sink.AssistantStarted();
  }

  method OpenThinking(sink: E.TurnEventEmitter, active: bool) returns (ok: bool)
    requires sink.Valid()
    modifies sink, sink.bus
    ensures Stepped(sink)
    ensures !ok ==> sink.View() == old(sink.View())
    ensures var i := old(sink.View().state.integrity);
      i.phase.Active? && i.assistant && i.thinking == active ==>
        if ok then
          Reached(sink.View(), old(sink.View()), if active then [] else [ThinkingStarted], true, true, i.workStarted)
        else !Live(sink)
  {
    if active { return true; }
    Wait(sink);
    ok := sink.ThinkingStarted();
  }

  method EndThinking(sink: E.TurnEventEmitter, active: bool) returns (ok: bool)
    requires sink.Valid()
    modifies sink, sink.bus
    ensures Stepped(sink)
    ensures !ok || !active ==> sink.View() == old(sink.View())
    ensures ok && active ==> Live(sink)
    ensures var i := old(sink.View().state.integrity);
      i.phase.Active? && i.thinking == active ==>
        if ok then
          Reached(sink.View(), old(sink.View()), if active then [ThinkingCompleted] else [],
                  i.assistant, false, i.workStarted)
        else !Live(sink)
  {
    if !active { return true; }
    Wait(sink);
    ok := sink.ThinkingCompleted();
  }

  method EndAssistant(sink: E.TurnEventEmitter, active: bool) returns (ok: bool)
    requires sink.Valid()
    modifies sink, sink.bus
    ensures Stepped(sink)
    ensures !ok || !active ==> sink.View() == old(sink.View())
    ensures ok && active ==> Live(sink)
    ensures var i := old(sink.View().state.integrity);
      i.phase.Active? && i.assistant == active && !i.thinking ==>
        if ok then
          Reached(sink.View(), old(sink.View()), if active then [AssistantCompleted] else [],
                  false, false, i.workStarted)
        else !Live(sink)
  {
    if !active { return true; }
    Wait(sink);
    ok := sink.AssistantCompleted();
  }

  method YieldAssistant(sink: E.TurnEventEmitter, active: bool) returns (ok: bool)
    requires sink.Valid()
    modifies sink, sink.bus
    ensures Stepped(sink)
    ensures !ok ==> sink.View() == old(sink.View())
    ensures var i := old(sink.View().state.integrity);
      i.phase.Active? && i.assistant == active && !i.thinking ==>
        if ok then Reached(sink.View(), old(sink.View()), [], false, false, i.workStarted) else !Live(sink)
  {
    if !active { return true; }
    Wait(sink);
    ok := sink.AssistantYieldsToAction();
  }

  method SayThinking(sink: E.TurnEventEmitter, text: string) returns (ok: bool)
    requires sink.Valid()
    modifies sink, sink.bus
    ensures Stepped(sink)
    ensures !ok ==> sink.View() == old(sink.View())
    ensures var i := old(sink.View().state.integrity);
      i.phase.Active? && i.thinking ==>
        if ok then
          Reached(sink.View(), old(sink.View()), [Events.ThinkingDelta(text)], i.assistant, true, i.workStarted)
        else !Live(sink)
  {
    Wait(sink);
    ok := sink.ThinkingDelta(text);
  }

  method SayText(sink: E.TurnEventEmitter, text: string) returns (ok: bool)
    requires sink.Valid()
    modifies sink, sink.bus
    ensures Stepped(sink)
    ensures !ok ==> sink.View() == old(sink.View())
    ensures var i := old(sink.View().state.integrity);
      i.phase.Active? && i.assistant && !i.thinking ==>
        if ok then
          Reached(sink.View(), old(sink.View()), [Events.AssistantDelta(text)], true, false, i.workStarted)
        else !Live(sink)
  {
    Wait(sink);
    ok := sink.AssistantDelta(text);
  }

  method ProjectReasoning(sink: E.TurnEventEmitter, text: string, assistant: bool, thinking: bool)
    returns (ok: bool, assistant': bool, thinking': bool)
    requires sink.Valid()
    modifies sink, sink.bus
    ensures Stepped(sink)
    ensures ok ==> assistant' && thinking'
    ensures var i, bodies := old(sink.View().state.integrity), ReasoningBodies(text, assistant, thinking);
      Agrees(i, assistant, thinking) ==>
        if ok then Reached(sink.View(), old(sink.View()), bodies, true, true, assistant ==> i.workStarted)
        else !Live(sink) && CutShort(sink.View(), old(sink.View()), bodies)
  {
    ghost var r0, calm := sink.View(), Agrees(sink.View().state.integrity, assistant, thinking);
    ghost var bodies := ReasoningBodies(text, assistant, thinking);
    assistant', thinking' := assistant, thinking;
    ok := OpenAssistant(sink, assistant);
    if !ok {
      CutAtOnce(r0, bodies);
      return;
    }
    assistant' := true;
    ghost var r1 := sink.View();
    ok := OpenThinking(sink, thinking);
    if !ok {
      if calm { CutAfter(r1, r0, if assistant then [] else [AssistantStarted], bodies); }
      return;
    }
    thinking' := true;
    ghost var r2 := sink.View();
    ok := SayThinking(sink, text);
    if calm && !ok { CutAfter(r2, r0, bodies[..|bodies| - 1], bodies); }
  }

  method ProjectText(sink: E.TurnEventEmitter, text: string, assistant: bool, thinking: bool)
    returns (ok: bool, assistant': bool, thinking': bool)
    requires sink.Valid()
    modifies sink, sink.bus
    ensures Stepped(sink)
    ensures ok ==> assistant' && !thinking'
    ensures var i, bodies := old(sink.View().state.integrity), TextBodies(text, assistant, thinking);
      Agrees(i, assistant, thinking) ==>
        if ok then Reached(sink.View(), old(sink.View()), bodies, true, false, assistant ==> i.workStarted)
        else !Live(sink) && CutShort(sink.View(), old(sink.View()), bodies)
  {
    ghost var r0, calm := sink.View(), Agrees(sink.View().state.integrity, assistant, thinking);
    ghost var bodies := TextBodies(text, assistant, thinking);
    assistant', thinking' := assistant, thinking;
    ok := OpenAssistant(sink, assistant);
    if !ok {
      CutAtOnce(r0, bodies);
      return;
    }
    assistant' := true;
    ghost var r1 := sink.View();
    ok := EndThinking(sink, thinking);
    if !ok {
      if calm { CutAfter(r1, r0, if assistant then [] else [AssistantStarted], bodies); }
      return;
    }
    thinking' := false;
    ghost var r2 := sink.View();
    ok := SayText(sink, text);
    if calm && !ok { CutAfter(r2, r0, bodies[..|bodies| - 1], bodies); }
  }

  /** The events that close what is open. */
  function Closers(thinking: bool, assistant: bool): seq<EventBody> {
    (if thinking then [ThinkingCompleted] else []) + (if assistant then [AssistantCompleted] else [])
  }

  /** Closes what is open while unwinding; a refusal is only logged. */
  method CloseActiveScopes(sink: E.TurnEventEmitter, thinking: bool, assistant: bool)
    requires sink.Valid()
    modifies sink, sink.bus
    ensures Stepped(sink)
    ensures !old(Live(sink)) ==> sink.View() == old(sink.View())
    ensures var i := old(sink.View().state.integrity);
      Agrees(i, assistant, thinking) ==>
        && (Live(sink) ==>
              Reached(sink.View(), old(sink.View()), Closers(thinking, assistant), false, false, i.workStarted))
        && CutShort(sink.View(), old(sink.View()), Closers(thinking, assistant))
  {
    ghost var r0, calm := sink.View(), Agrees(sink.View().state.integrity, assistant, thinking);
    ghost var bodies := Closers(thinking, assistant);
    var thought := EndThinking(sink, thinking);
    ghost var r1 := sink.View();
    var ended := EndAssistant(sink, assistant);
    if !thought {
      CutAtOnce(r0, bodies);
    } else if calm && ended {
      CutAfter(sink.View(), r0, bodies, bodies);
    } else if calm {
      CutAfter(r1, r0, if thinking then [ThinkingCompleted] else [], bodies);
    }
  }

  // ---------- the receive loop ----------

  lemma SpokenSnoc(h: seq<ModelEvent>, e: ModelEvent)
    ensures Spoken(h + [e]) <==> Spoken(h) || (e.TextDelta? && e.text != "")
    ensures Opened(h + [e]) <==> Opened(h) || IsDelta(e)
    ensures WellOrdered(h + [e]) <==> WellOrdered(h) && (e.ReasoningDelta? ==> !Spoken(h))
  {
    var v := h + [e];
    forall i | 0 <= i < |h|
      ensures v[i] == h[i] && v[..i] == h[..i]
    {
    }
    assert v[|h|] == e && v[..|h|] == h;
    if Spoken(h) {
      var i :| 0 <= i < |h| && h[i].TextDelta? && h[i].text != "";
      assert v[i].TextDelta? && v[i].text != "";
    }
    if Opened(h) {
      var i :| 0 <= i < |h| && IsDelta(h[i]);
      assert IsDelta(v[i]);
    }
    if WellOrdered(v) {
      forall i | 0 <= i < |h| && h[i].ReasoningDelta?
        ensures !Spoken(h[..i])
      {
        assert v[i].ReasoningDelta?;
      }
    }
  }

  /** The round collected so far, with one more event. */
  function Collected(round: ModelRound, e: ModelEvent): ModelRound {
    ModelRound(
      if e.TextDelta? then round.text + e.text else round.text,
      if e.ToolCall? then round.toolCalls + [PendingToolCall(e.id, e.name, e.arguments)] else round.toolCalls,
      SaturatingSucc(round.eventCount))
  }

  /** The local variables of the loop, as functions of the events heard so far. */
  ghost predicate InStep(heard: seq<ModelEvent>, assistant: bool, thinking: bool, textStarted: bool,
                         round: ModelRound)
  {
    && assistant == Opened(heard) && thinking == Thinking(heard) && textStarted == Spoken(heard)
    && (thinking ==> assistant)
    && round == ModelRound(TextOf(heard), CallsOf(heard), Saturated(|heard|))
    && WellOrdered(heard)
  }

  lemma InStepSnoc(h: seq<ModelEvent>, e: ModelEvent, a: bool, t: bool, s: bool, round: ModelRound)
    requires InStep(h, a, t, s, round) && (e.ReasoningDelta? ==> !s)
    ensures InStep(h + [e], a || IsDelta(e),
                   if e.ReasoningDelta? then true else if e.TextDelta? then false else t,
                   s || (e.TextDelta? && e.text != ""), Collected(round, e))
  {
    SpokenSnoc(h, e);
    assert (h + [e])[..|h|] == h;
  }

  /** Where a quiet sink stands after the events heard so far. */
  ghost predicate Followed(r: E.Run, r0: E.Run, heard: seq<ModelEvent>) {
    Reached(r, r0, Projected(heard), Opened(heard), Thinking(heard), r0.state.integrity.workStarted || Opened(heard))
  }

  lemma FollowedStep(r2: E.Run, r1: E.Run, r0: E.Run, heard: seq<ModelEvent>, e: ModelEvent)
    requires Followed(r1, r0, heard)
    requires if IsDelta(e) then
               Reached(r2, r1, EventBodies(e, Opened(heard), Thinking(heard)), true, e.ReasoningDelta?,
                       Opened(heard) ==> r1.state.integrity.workStarted)
             else r2 == r1
    ensures Followed(r2, r0, heard + [e])
  {
    SpokenSnoc(heard, e);
    assert (heard + [e])[..|heard|] == heard;
    Associative(r0.word, Projected(heard), EventBodies(e, Opened(heard), Thinking(heard)));
  }

  /** The events of one received event, or a beginning of them. */
  ghost predicate Went(ok: bool, live: bool, r: E.Run, r0: E.Run, heard: seq<ModelEvent>, e: ModelEvent) {
    if ok then Followed(r, r0, heard + [e]) else !live && CutShort(r, r0, Projected(heard + [e]))
  }

  lemma WentStep(ok: bool, live: bool, r2: E.Run, r1: E.Run, r0: E.Run, heard: seq<ModelEvent>, e: ModelEvent)
    requires Followed(r1, r0, heard) && r0.state.integrity.phase.Active?
    requires var bodies := EventBodies(e, Opened(heard), Thinking(heard));
      if !ok then !live && CutShort(r2, r1, bodies)
      else if IsDelta(e) then
        Reached(r2, r1, bodies, true, e.ReasoningDelta?, Opened(heard) ==> r1.state.integrity.workStarted)
      else r2 == r1
    ensures Went(ok, live, r2, r0, heard, e)
  {
    if ok {
      FollowedStep(r2, r1, r0, heard, e);
    } else {
      CutLater(r2, r1, r0, Projected(heard), EventBodies(e, Opened(heard), Thinking(heard)));
      HeardOneMore(heard, e);
    }
  }

  /** Publishes what one received event calls for. */
  method ProjectEvent(sink: E.TurnEventEmitter, e: ModelEvent, assistant: bool, thinking: bool,
                      ghost heard: seq<ModelEvent>, ghost r0: E.Run)
    returns (ok: bool, assistant': bool, thinking': bool)
    requires sink.Valid()
    requires assistant == Opened(heard) && thinking == Thinking(heard) && (thinking ==> assistant)
    modifies sink, sink.bus
    ensures Stepped(sink)
    ensures ok ==> assistant' == (assistant || IsDelta(e))
    ensures ok ==> thinking' == if e.ReasoningDelta? then true else if e.TextDelta? then false else thinking
    ensures r0.state.integrity.phase.Active? && old(Followed(sink.View(), r0, heard)) ==>
      Went(ok, Live(sink), sink.View(), r0, heard, e)
  {
    ghost var before := sink.View();
    match e {
      case ReasoningDelta(text) =>
        ok, assistant', thinking' := ProjectReasoning(sink, text, assistant, thinking);
      case TextDelta(text) =>
        ok, assistant', thinking' := ProjectText(sink, text, assistant, thinking);
      case _ =>
        ok, assistant', thinking' := true, assistant, thinking;
    }
    if r0.state.integrity.phase.Active? && Followed(before, r0, heard) {
      WentStep(ok, Live(sink), sink.View(), before, r0, heard, e);
    }
  }

  /** A sink in the middle of a turn with no text scope open. */
  ghost predicate Quiet(i: Integrity.State) {
    i.phase.Active? && !i.assistant && !i.thinking
  }

  /** The events that some model events call for, the closing ones included. */
  function RoundBodies(heard: seq<ModelEvent>, silent: bool): seq<EventBody> {
    Projected(heard) + ClosingBodies(heard, silent)
  }

  /** Where the sink stands after the closing events. */
  ghost predicate Closed(r: E.Run, r0: E.Run, heard: seq<ModelEvent>, silent: bool) {
    Reached(r, r0, RoundBodies(heard, silent), false, false, r0.state.integrity.workStarted || Opened(heard))
  }

  lemma ClosedStep(r2: E.Run, r1: E.Run, r0: E.Run, heard: seq<ModelEvent>, silent: bool)
    requires Followed(r1, r0, heard)
    requires Reached(r2, r1, ClosingBodies(heard, silent), false, false, r1.state.integrity.workStarted)
    ensures Closed(r2, r0, heard, silent)
  {
    Associative(r0.word, Projected(heard), ClosingBodies(heard, silent));
  }

  /** The normal end of a stream: thinking is closed, then the assistant is closed or yields to the pending calls. */
  method CloseRound(sink: E.TurnEventEmitter, thinking: bool, assistant: bool, pendingCalls: bool) returns (ok: bool)
    requires sink.Valid()
    modifies sink, sink.bus
    ensures Stepped(sink)
    ensures var i, bodies := old(sink.View().state.integrity), Closers(thinking, assistant && !pendingCalls);
      Agrees(i, assistant, thinking) ==>
        if ok then Reached(sink.View(), old(sink.View()), bodies, false, false, i.workStarted)
        else !Live(sink) && CutShort(sink.View(), old(sink.View()), bodies)
  {
    ghost var r0, calm := sink.View(), Agrees(sink.View().state.integrity, assistant, thinking);
    ghost var bodies := Closers(thinking, assistant && !pendingCalls);
    ok := EndThinking(sink, thinking);
    if !ok {
      CutAtOnce(r0, bodies);
      return;
    }
    ghost var r1 := sink.View();
    if !pendingCalls {
      ok := EndAssistant(sink, assistant);
    } else {
      ok := YieldAssistant(sink, assistant);
    }
    if calm && !ok { CutAfter(r1, r0, if thinking then [ThinkingCompleted] else [], bodies); }
  }

  /** What a successful round carries, and what the errors mean. */
  ghost predicate Carried(items: seq<StreamItem>, r: Result<ModelRound, ProjectionError>) {
    var heard := Heard(items);
    match r
    case Ok(round) =>
      && Ending(items).None? && WellOrdered(heard)
      && round == ModelRound(TextOf(heard), CallsOf(heard), Saturated(|heard|))
    case Err(e) => e.SemanticEventRejected? || Ending(items) == Some(e) || (e.InvalidSequence? && !WellOrdered(heard))
  }

  /** Nothing was refused: the stream alone decides the result and the published events. */
  ghost predicate Decided(items: seq<StreamItem>, r: Result<ModelRound, ProjectionError>, after: E.Run, before: E.Run) {
    var heard := Heard(items);
    && after.state.integrity.phase.Active?
    && if !WellOrdered(heard) then
         r == Err(InvalidSequence) && exists k :: 0 <= k <= |heard| && Followed(after, before, heard[..k])
       else if Ending(items).Some? then r == Err(Ending(items).value) && Closed(after, before, heard, false)
       else r.Ok? && Closed(after, before, heard, CallsOf(heard) != [])
  }

  /** What was published is a beginning of what a part of the stream calls for. */
  ghost predicate Begun(items: seq<StreamItem>, after: E.Run, before: E.Run) {
    exists n, silent :: 0 <= n <= |Heard(items)| && CutShort(after, before, RoundBodies(Heard(items)[..n], silent))
  }

  /** The outcome over a quiet sink: decided by the stream if it succeeds or the client stays, cut short otherwise. */
  ghost predicate StreamWent(items: seq<StreamItem>, r: Result<ModelRound, ProjectionError>, live: bool,
                             after: E.Run, before: E.Run) {
    && (r.Ok? || live ==> Decided(items, r, after, before)) && Begun(items, after, before)
    && after.state.integrity.phase.Active?
  }

  lemma ClosedIsBegun(items: seq<StreamItem>, r: E.Run, r0: E.Run, heard: seq<ModelEvent>, silent: bool)
    requires heard <= Heard(items) && CutShort(r, r0, RoundBodies(heard, silent))
    ensures Begun(items, r, r0)
  {
    assert Heard(items)[..|heard|] == heard;
  }

  lemma FollowedIsBegun(items: seq<StreamItem>, r: E.Run, r0: E.Run, heard: seq<ModelEvent>)
    requires heard <= Heard(items) && CutShort(r, r0, Projected(heard))
    ensures Begun(items, r, r0)
  {
    CutMore(r, r0, Projected(heard), ClosingBodies(heard, false));
    ClosedIsBegun(items, r, r0, heard, false);
  }

  /** The end of a stream that fails or is cancelled: what is open is closed. */
  method Unwind(sink: E.TurnEventEmitter, thinking: bool, assistant: bool, ghost heard: seq<ModelEvent>,
                ghost r0: E.Run, ghost items: seq<StreamItem>, error: ProjectionError)
    returns (r: Result<ModelRound, ProjectionError>)
    requires sink.Valid()
    requires assistant == Opened(heard) && thinking == Thinking(heard) && (thinking ==> assistant)
    requires heard == Heard(items) && WellOrdered(heard) && Ending(items) == Some(error)
    modifies sink, sink.bus
    ensures Stepped(sink)
    ensures r == Err(error)
    ensures r0.state.integrity.phase.Active? && old(Followed(sink.View(), r0, heard)) ==>
      StreamWent(items, r, Live(sink), sink.View(), r0)
  {
    ghost var before := sink.View();
    CloseActiveScopes(sink, thinking, assistant);
    r := Err(error);
    if r0.state.integrity.phase.Active? && Followed(before, r0, heard) {
      if Live(sink) { ClosedStep(sink.View(), before, r0, heard, false); }
      CutLater(sink.View(), before, r0, Projected(heard), ClosingBodies(heard, false));
      ClosedIsBegun(items, sink.View(), r0, heard, false);
    }
  }

  /** The end of a stream whose event was refused: nothing that is open can be closed any more. */
  method GiveUp(sink: E.TurnEventEmitter, thinking: bool, assistant: bool, ghost heard: seq<ModelEvent>, e: ModelEvent,
                ghost r0: E.Run, ghost items: seq<StreamItem>, ghost calm: bool)
    returns (r: Result<ModelRound, ProjectionError>)
    requires sink.Valid() && heard + [e] <= Heard(items)
    requires calm ==> Went(false, Live(sink), sink.View(), r0, heard, e) && sink.View().state.integrity.phase.Active?
    modifies sink, sink.bus
    ensures Stepped(sink)
    ensures r == Err(SemanticEventRejected)
    ensures calm ==> StreamWent(items, r, Live(sink), sink.View(), r0)
  {
    if calm { FollowedIsBegun(items, sink.View(), r0, heard + [e]); }
    CloseActiveScopes(sink, thinking, assistant);
    r := Err(SemanticEventRejected);
  }

  /** The normal end of a stream. */
  method Conclude(sink: E.TurnEventEmitter, thinking: bool, assistant: bool, round: ModelRound,
                  ghost heard: seq<ModelEvent>, ghost r0: E.Run, ghost items: seq<StreamItem>)
    returns (r: Result<ModelRound, ProjectionError>)
    requires sink.Valid()
    requires assistant == Opened(heard) && thinking == Thinking(heard) && (thinking ==> assistant)
    requires heard == Heard(items) && WellOrdered(heard) && Ending(items).None?
    requires round == ModelRound(TextOf(heard), CallsOf(heard), Saturated(|heard|))
    modifies sink, sink.bus
    ensures Stepped(sink)
    ensures Carried(items, r)
    ensures r0.state.integrity.phase.Active? && old(Followed(sink.View(), r0, heard)) ==>
      StreamWent(items, r, Live(sink), sink.View(), r0)
  {
    ghost var before, silent := sink.View(), CallsOf(heard) != [];
    var closed := CloseRound(sink, thinking, assistant, round.toolCalls != []);
    r := if closed then Ok(round) else Err(SemanticEventRejected);
    if r0.state.integrity.phase.Active? && Followed(before, r0, heard) {
      assert ClosingBodies(heard, silent) == Closers(thinking, assistant && !silent);
      if closed {
        ClosedStep(sink.View(), before, r0, heard, silent);
        CutAfter(sink.View(), r0, RoundBodies(heard, silent), RoundBodies(heard, silent));
      } else {
        CutLater(sink.View(), before, r0, Projected(heard), ClosingBodies(heard, silent));
      }
      ClosedIsBegun(items, sink.View(), r0, heard, silent);
    }
  }

  lemma LateReasoningWent(items: seq<StreamItem>, live: bool, r: E.Run, r0: E.Run, heard: seq<ModelEvent>)
    requires heard <= Heard(items) && !WellOrdered(Heard(items))
    requires r0.state.integrity.phase.Active? && Followed(r, r0, heard)
    ensures StreamWent(items, Err(InvalidSequence), live, r, r0)
  {
    assert Heard(items)[..|heard|] == heard;
    CutAfter(r, r0, Projected(heard), Projected(heard));
    FollowedIsBegun(items, r, r0, heard);
  }

  /** The receive loop. */
  method ReceiveStream(items: seq<StreamItem>, sink: E.TurnEventEmitter)
    returns (r: Result<ModelRound, ProjectionError>)
    requires sink.Valid()
    modifies sink, sink.bus
    ensures Stepped(sink)
    ensures Carried(items, r)
    ensures old(Quiet(sink.View().state.integrity)) ==> StreamWent(items, r, Live(sink), sink.View(), old(sink.View()))
  {
    ghost var r0, calm := sink.View(), Quiet(sink.View().state.integrity);
    var round := ModelRound("", [], 0);
    var assistant, thinking, textStarted := false, false, false;
    ghost var heard: seq<ModelEvent> := [];
    var queue := items;
    assert r0.word + Projected(heard) == r0.word;
    assert heard + Heard(items) == Heard(items);
    while queue != []
      invariant Stepped(sink)
      invariant InStep(heard, assistant, thinking, textStarted, round)
      invariant heard + Heard(queue) == Heard(items) && Ending(queue) == Ending(items)
      invariant calm ==> Followed(sink.View(), r0, heard)
      decreases |queue|
    {
      var item := queue[0];
      queue := queue[1..];
      match item {
        case CancelChanged(now) =>
          if now {
            HeardAll(heard);
            r := Unwind(sink, thinking, assistant, heard, r0, items, Cancelled);
            return;
          }
        case StreamFailed(error) =>
          HeardAll(heard);
          r := Unwind(sink, thinking, assistant, heard, r0, items, Llm(error));
          return;
        case Received(e) =>
          if e.ReasoningDelta? && textStarted {
            LateReasoning(heard, e, Heard(queue));
            if calm { LateReasoningWent(items, Live(sink), sink.View(), r0, heard); }
            return Err(InvalidSequence);
          }
          InStepSnoc(heard, e, assistant, thinking, textStarted, round);
          Associative(heard, [e], Heard(queue));
          var ok;
          ok, assistant, thinking := ProjectEvent(sink, e, assistant, thinking, heard, r0);
          if !ok {
            r := GiveUp(sink, thinking, assistant, heard, e, r0, items, calm);
            return;
          }
          textStarted := textStarted || (e.TextDelta? && e.text != "");
          round := Collected(round, e);
          heard := heard + [e];
      }
    }
    HeardAll(heard);
    r := Conclude(sink, thinking, assistant, round, heard, r0, items);
  }

  /**
   * Consumes one model stream. Over a quiet sink the result and the published events are determined by the stream; if
   * the client leaves meanwhile, a beginning of these events is published and the round fails.
   */
  method ConsumeModelStream(items: seq<StreamItem>, cancelledBefore: bool, sink: E.TurnEventEmitter)
    returns (r: Result<ModelRound, ProjectionError>)
    requires sink.Valid()
    modifies sink, sink.bus
    ensures OneWay(sink)
    ensures if cancelledBefore then r in {Err(Cancelled), Err(SemanticEventRejected)} else Carried(items, r)
    ensures old(Quiet(sink.View().state.integrity)) ==>
      if cancelledBefore then r == Err(Cancelled) && sink.View() == old(sink.View())
      else StreamWent(items, r, Live(sink), sink.View(), old(sink.View()))
  {
    var started := sink.EnsureTurnStarted();
    if !started { return Err(SemanticEventRejected); }
    if cancelledBefore { return Err(Cancelled); }
    r := ReceiveStream(items, sink);
  }

  lemma HeardAll(heard: seq<ModelEvent>)
    ensures heard + [] == heard
  {
  }

  /** Reasoning after text breaks the order of the whole stream. */
  lemma LateReasoning(heard: seq<ModelEvent>, e: ModelEvent, more: seq<ModelEvent>)
    requires e.ReasoningDelta? && Spoken(heard)
    ensures !WellOrdered(heard + ([e] + more))
  {
    var all := heard + ([e] + more);
    assert all[|heard|] == e && all[..|heard|] == heard;
  }
}
