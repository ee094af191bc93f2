/** Emitter steps of a running turn, and what they leave in the published word. */
module TurnSteps {
  import opened Prelude
  import opened Events
  import Integrity
  import E = Emitter
  import opened ModelProjection

  type Trail = seq<(string, string)>

  /** The identity and name of every requested call, in order. */
  function Requests(word: seq<EventBody>): Trail {
    if word == [] then []
    else
      var e := word[|word| - 1];
      Requests(word[..|word| - 1]) + (if e.ToolCallRequested? then [(e.id, e.name)] else [])
  }

  /** The identity and content of every result, in order. */
  function Results(word: seq<EventBody>): Trail {
    if word == [] then []
    else
      var e := word[|word| - 1];
      Results(word[..|word| - 1]) + (if e.ToolResultReceived? then [(e.id, e.result)] else [])
  }

  function Firsts(trail: Trail): seq<string> {
    seq(|trail|, i requires 0 <= i < |trail| => trail[i].0)
  }

  predicate EndsInRequest(word: seq<EventBody>) {
    word != [] && word[|word| - 1].ToolCallRequested?
  }

  /** The last event before the terminal one is a request: its call was abandoned. */
  predicate EndsAbandoned(word: seq<EventBody>) {
    word != [] && word[|word| - 1].IsTerminal() && EndsInRequest(word[..|word| - 1])
  }

  lemma TrailSnoc(word: seq<EventBody>, e: EventBody)
    ensures Requests(word + [e]) == if e.ToolCallRequested? then Requests(word) + [(e.id, e.name)] else Requests(word)
    ensures Results(word + [e]) == if e.ToolResultReceived? then Results(word) + [(e.id, e.result)] else Results(word)
  {
  }

  predicate NoToolEvents(bodies: seq<EventBody>) {
    forall i | 0 <= i < |bodies| :: !bodies[i].ToolCallRequested? && !bodies[i].ToolResultReceived?
  }

  lemma {:induction false} NoToolEventsKeepTrail(word: seq<EventBody>, bodies: seq<EventBody>)
    requires NoToolEvents(bodies)
    ensures Requests(word + bodies) == Requests(word) && Results(word + bodies) == Results(word)
    ensures bodies != [] || !EndsInRequest(word) ==> !EndsInRequest(word + bodies)
  {
    if bodies == [] {
      assert word + bodies == word;
    } else {
      var n := |bodies| - 1;
      assert word + bodies == (word + bodies[..n]) + [bodies[n]];
      NoToolEventsKeepTrail(word, bodies[..n]);
      TrailSnoc(word + bodies[..n], bodies[n]);
    }
  }

  lemma StepHasNoToolEvents(e: ModelEvent, assistant: bool, thinking: bool)
    ensures NoToolEvents(EventBodies(e, assistant, thinking))
  {
  }

  lemma NoToolEventsAppend(a: seq<EventBody>, b: seq<EventBody>)
    requires NoToolEvents(a) && NoToolEvents(b)
    ensures NoToolEvents(a + b)
  {
  }

  lemma {:induction false} ProjectedHasNoToolEvents(events: seq<ModelEvent>)
    ensures NoToolEvents(Projected(events))
  {
    if events != [] {
      var before, e := events[..|events| - 1], events[|events| - 1];
      ProjectedHasNoToolEvents(before);
      StepHasNoToolEvents(e, Opened(before), Thinking(before));
      NoToolEventsAppend(Projected(before), EventBodies(e, Opened(before), Thinking(before)));
    }
  }

  // ---------- terminal steps ----------

  lemma NothingOpenAfterAbort(i: Integrity.State, event: Integrity.TerminalEvent)
    requires !event.Completed?
    ensures Integrity.OpenTools(E.ScopesClosed(i, event)) == {}
  {
  }

  /** The turn has ended with this event. */
  ghost predicate Ended(r: E.Run, r0: E.Run, event: Integrity.TerminalEvent) {
    r.state.integrity.phase.Terminal? && r.word == r0.word + [E.TerminalBody(event)]
  }

  /** The step was refused because the client has left; nothing changed. */
  twostate predicate Lost(sink: E.TurnEventEmitter)
    reads sink, sink.bus, sink.integrity
  {
    !Live(sink) && sink.View() == old(sink.View())
  }

  /** `turn_failed` and `turn_cancelled` of an active turn are refused only if the client has left. */
  method EndTurn(sink: E.TurnEventEmitter, event: Integrity.TerminalEvent) returns (ok: bool)
    requires sink.Valid() && !event.Completed?
    modifies sink, sink.bus
    ensures OneWay(sink)
    ensures old(sink.integrity.phase).Active? ==>
      if ok then Live(sink) && Ended(sink.View(), old(sink.View()), event) else Lost(sink)
    ensures !old(sink.integrity.phase).Active? ==> !ok && sink.View() == old(sink.View())
  {
    NothingOpenAfterAbort(sink.View().state.integrity, event);
    Wait(sink);
    ok := sink.FinishTerminal(event);
  }

  /** Between two steps of a turn: no text scope and no tool is open. */
  ghost predicate Resting(r: E.Run) {
    && Quiet(r.state.integrity)
    && r.word != [] && !EndsInRequest(r.word)
    && r.state.bindings == map[]
    && r.state.seen == r.state.integrity.tools.Keys
    && Integrity.OpenTools(r.state.integrity) == {}
  }

  lemma CompleteMoves(r: E.Run, answer: E.Transport)
    requires Resting(r) && r.state.integrity.workStarted
    ensures var call := E.Finish(Integrity.Completed);
      if E.Accepts(r.state, call, answer) then Ended(E.Emit(r, call, answer), r, Integrity.Completed)
      else answer != E.CONNECTED && E.Emit(r, call, answer) == r
  {
  }

  method CompleteTurn(sink: E.TurnEventEmitter) returns (ok: bool)
    requires sink.Valid() && Resting(sink.View()) && sink.View().state.integrity.workStarted
    modifies sink, sink.bus
    ensures OneWay(sink)
    ensures if ok then Live(sink) && Ended(sink.View(), old(sink.View()), Integrity.Completed) else Lost(sink)
  {
    Wait(sink);
    CompleteMoves(sink.View(), sink.Answer());
    ok := sink.FinishTerminal(Integrity.Completed);
  }

  // ---------- the steps of one tool call ----------

  /** The turn is in the middle of this call, which is the only open one. */
  ghost predicate InCall(r: E.Run, r0: E.Run, id: ToolCallId, phase: Integrity.ToolPhase, steps: seq<EventBody>) {
    && Quiet(r.state.integrity)
    && r.word == r0.word + steps
    && r.state.bindings == r0.state.bindings[id := id]
    && r.state.seen == r0.state.seen + {id}
    && r.state.integrity.tools == r0.state.integrity.tools[id := phase]
  }

  /** A sink at rest accepts the request of a new call. */
  method RequestCall(sink: E.TurnEventEmitter, id: ToolCallId, name: string, ui: Option<ToolUi>) returns (ok: bool)
    requires sink.Valid()
    modifies sink, sink.bus
    ensures OneWay(sink)
    ensures old(Resting(sink.View()) && id !in sink.View().state.integrity.tools) && id != "" ==>
      if ok then InCall(sink.View(), old(sink.View()), id, Integrity.Requested, [ToolCallRequested(id, name, ui)])
      else Lost(sink)
  {
    Wait(sink);
    ok := sink.ToolCallRequested(id, name, ui);
  }

  /** A result straight after the request is refused and changes nothing. */
  method ResultTooEarly(sink: E.TurnEventEmitter, id: ToolCallId, result: string, ui: Option<ToolUi>, ghost r0: E.Run,
                        ghost steps: seq<EventBody>) returns (ok: bool)
    requires sink.Valid()
    modifies sink, sink.bus
    ensures OneWay(sink)
    ensures old(InCall(sink.View(), r0, id, Integrity.Requested, steps)) ==> !ok && sink.View() == old(sink.View())
  {
    Wait(sink);
    ok := sink.ToolResultReceived(id, result, ui);
  }

  lemma AskMoves(r: E.Run, r0: E.Run, id: ToolCallId, steps: seq<EventBody>, answer: E.Transport)
    requires InCall(r, r0, id, Integrity.Requested, steps)
    ensures var call := E.AskPermission(id);
      if E.Accepts(r.state, call, answer) then
        InCall(E.Emit(r, call, answer), r0, id, Integrity.Permission, steps + [PermissionRequested(id)])
      else answer != E.CONNECTED && E.Emit(r, call, answer) == r
  {
    Associative(r0.word, steps, [PermissionRequested(id)]);
  }

  method AskForCall(sink: E.TurnEventEmitter, id: ToolCallId, ghost r0: E.Run, ghost steps: seq<EventBody>)
    returns (ok: bool)
    requires sink.Valid() && InCall(sink.View(), r0, id, Integrity.Requested, steps)
    modifies sink, sink.bus
    ensures OneWay(sink)
    ensures if ok then InCall(sink.View(), r0, id, Integrity.Permission, steps + [PermissionRequested(id)])
            else Lost(sink)
  {
    Wait(sink);
    AskMoves(sink.View(), r0, id, steps, sink.Answer());
    ok := sink.PermissionRequested(id);
  }

  lemma StartMoves(r: E.Run, r0: E.Run, id: ToolCallId, ui: Option<ToolUi>, phase: Integrity.ToolPhase,
                   steps: seq<EventBody>, answer: E.Transport)
    requires InCall(r, r0, id, phase, steps) && (phase.Requested? || phase.Permission?)
    ensures var call := E.StartExecution(id, ui);
      if E.Accepts(r.state, call, answer) then
        InCall(E.Emit(r, call, answer), r0, id, Integrity.Executing, steps + [ToolExecutionStarted(id, ui)])
      else answer != E.CONNECTED && E.Emit(r, call, answer) == r
  {
    Associative(r0.word, steps, [ToolExecutionStarted(id, ui)]);
  }

  method StartCall(sink: E.TurnEventEmitter, id: ToolCallId, ui: Option<ToolUi>,
                   ghost r0: E.Run, ghost phase: Integrity.ToolPhase, ghost steps: seq<EventBody>) returns (ok: bool)
    requires sink.Valid() && InCall(sink.View(), r0, id, phase, steps)
    requires phase.Requested? || phase.Permission?
    modifies sink, sink.bus
    ensures OneWay(sink)
    ensures if ok then InCall(sink.View(), r0, id, Integrity.Executing, steps + [ToolExecutionStarted(id, ui)])
            else Lost(sink)
  {
    Wait(sink);
    StartMoves(sink.View(), r0, id, ui, phase, steps, sink.Answer());
    ok := sink.ToolExecutionStarted(id, ui);
  }

  /** The call is over: the turn rests again and knows one more closed tool. */
  ghost predicate CallOver(r: E.Run, r0: E.Run, id: ToolCallId, steps: seq<EventBody>) {
    && Resting(r)
    && r.word == r0.word + steps
    && r.state.integrity.tools.Keys == r0.state.integrity.tools.Keys + {id}
  }

  lemma FinishMoves(r: E.Run, r0: E.Run, id: ToolCallId, result: string, ui: Option<ToolUi>,
                    phase: Integrity.ToolPhase, steps: seq<EventBody>, answer: E.Transport)
    requires InCall(r, r0, id, phase, steps) && (phase.Permission? || phase.Executing?)
    requires Resting(r0) && id !in r0.state.integrity.tools
    ensures var call := E.ReceiveResult(id, result, ui);
      if E.Accepts(r.state, call, answer) then
        CallOver(E.Emit(r, call, answer), r0, id, steps + [ToolResultReceived(id, result, ui)])
      else answer != E.CONNECTED && E.Emit(r, call, answer) == r
  {
    Associative(r0.word, steps, [ToolResultReceived(id, result, ui)]);
  }

  method FinishCall(sink: E.TurnEventEmitter, id: ToolCallId, result: string, ui: Option<ToolUi>,
                    ghost r0: E.Run, ghost phase: Integrity.ToolPhase, ghost steps: seq<EventBody>) returns (ok: bool)
    requires sink.Valid() && InCall(sink.View(), r0, id, phase, steps)
    requires Resting(r0) && id !in r0.state.integrity.tools && (phase.Permission? || phase.Executing?)
    modifies sink, sink.bus
    ensures OneWay(sink)
    ensures if ok then CallOver(sink.View(), r0, id, steps + [ToolResultReceived(id, result, ui)]) else Lost(sink)
  {
    Wait(sink);
    FinishMoves(sink.View(), r0, id, result, ui, phase, steps, sink.Answer());
    ok := sink.ToolResultReceived(id, result, ui);
  }

  /** The events of one call that ran its course: a request, permission or execution or both, one result. */
  ghost predicate CallSteps(steps: seq<EventBody>, id: ToolCallId, name: string, content: string) {
    && |steps| >= 3
    && steps[0].ToolCallRequested? && steps[0].id == id && steps[0].name == name
    && NoToolEvents(steps[1..|steps| - 1])
    && steps[|steps| - 1].ToolResultReceived? && steps[|steps| - 1].id == id && steps[|steps| - 1].result == content
  }

  lemma CallStepsTrail(word: seq<EventBody>, steps: seq<EventBody>, id: ToolCallId, name: string, content: string)
    requires CallSteps(steps, id, name, content)
    ensures Requests(word + steps) == Requests(word) + [(id, name)]
    ensures Results(word + steps) == Results(word) + [(id, content)]
  {
    var n := |steps| - 1;
    Framed(word, steps[0], steps[1..n], steps[n]);
    assert steps == [steps[0]] + steps[1..n] + [steps[n]];
    assert word + steps == word + [steps[0]] + steps[1..n] + [steps[n]];
  }

  lemma Framed(word: seq<EventBody>, request: EventBody, inner: seq<EventBody>, result: EventBody)
    requires request.ToolCallRequested? && NoToolEvents(inner) && result.ToolResultReceived?
    ensures Requests(word + [request] + inner + [result]) == Requests(word) + [(request.id, request.name)]
    ensures Results(word + [request] + inner + [result]) == Results(word) + [(result.id, result.result)]
  {
    TrailSnoc(word, request);
    NoToolEventsKeepTrail(word + [request], inner);
    TrailSnoc(word + [request] + inner, result);
  }
}
