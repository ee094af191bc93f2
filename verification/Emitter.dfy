/** The turn event emitter: sequence numbers, tool identities and rollback around the integrity layer. */
module Emitter {
  import opened Prelude
  import opened Events
  import Integrity
  import opened Bus

  type Phases = Integrity.State

  datatype Call =
    | StartTurn
    | StartAssistant
    | SayAssistant(text: string)
    | CompleteAssistant
    | YieldToAction
    | StartThinking
    | SayThinking(text: string)
    | CompleteThinking
    | RequestTool(id: ToolCallId, name: string, ui: Option<ToolUi>)
    | AskPermission(id: ToolCallId)
    | StartExecution(id: ToolCallId, ui: Option<ToolUi>)
    | ReceiveResult(id: ToolCallId, result: string, ui: Option<ToolUi>)
    | Finish(event: Integrity.TerminalEvent)

  datatype EmitterState = EmitterState(
    nextSequence: nat,
    integrity: Phases,
    bindings: map<ToolCallId, ToolCallId>,
    seen: set<ToolCallId>)

  /** An emitter and everything it has published. */
  datatype Run = Run(state: EmitterState, word: seq<EventBody>)

  const FreshRun := Run(EmitterState(0, Integrity.FreshState, map[], {}), [])

  /** What the transport answers to one call: the subscriber check, then the delivery itself. */
  datatype Transport = Transport(ready: bool, delivers: bool)

  const CONNECTED := Transport(true, true)

  /** Identities seen are the tools known to the integrity layer; the bound ones are those still open. */
  ghost predicate ToolsAgree(
    bindings: map<ToolCallId, ToolCallId>, seen: set<ToolCallId>, tools: map<ToolCallId, Integrity.ToolPhase>)
  {
    && seen == tools.Keys
    && (forall id | id in bindings :: bindings[id] == id && id in tools && !tools[id].Closed?)
    && (forall id | id in tools && !tools[id].Closed? :: id in bindings)
  }

  /** The tool bindings and identities agree with the integrity layer, the numbering with the published word. */
  ghost predicate Sound(r: Run) {
    var s := r.state;
    && s.nextSequence == Saturated(|r.word|)
    && (s.integrity.phase.NotStarted? ==> s.integrity == Integrity.FreshState && r.word == [])
    && (s.integrity.thinking ==> s.integrity.assistant)
    && if s.integrity.phase.Terminal? then
         s.bindings == map[] && s.seen == {}
       else
         ToolsAgree(s.bindings, s.seen, s.integrity.tools)
  }

  /** The integrity state a terminal event leads to: open scopes are closed first unless the turn completed. */
  function ScopesClosed(i: Phases, event: Integrity.TerminalEvent): Phases {
    if event.Completed? then i
    else
      var reason := if event.Cancelled? then Integrity.ByTurnCancelled else Integrity.ByTurnFailed;
      i.(thinking := false, assistant := false, tools := Integrity.Aborted(i.tools, i.tools.Keys, reason))
  }

  function TerminalBody(event: Integrity.TerminalEvent): EventBody {
    match event
    case Cancelled => TurnCancelled
    case Failed => TurnFailed
    case Completed => TurnCompleted
  }

  /** The integrity transition behind a call. */
  function TransitionOf(call: Call): Integrity.Transition {
    match call
    case StartTurn => Integrity.StartTurn
    case StartAssistant => Integrity.StartAssistant
    case SayAssistant(_) => Integrity.DeltaAssistant
    case CompleteAssistant => Integrity.CompleteAssistant
    case YieldToAction => Integrity.YieldAssistant
    case StartThinking => Integrity.StartThinking
    case SayThinking(_) => Integrity.DeltaThinking
    case CompleteThinking => Integrity.CompleteThinking
    case RequestTool(id, _, _) => Integrity.RequestTool(id)
    case AskPermission(id) => Integrity.AskPermission(id)
    case StartExecution(id, _) => Integrity.StartExecution(id)
    case ReceiveResult(id, _, _) => Integrity.ReceiveResult(id)
    case Finish(event) => Integrity.Finish(event)
  }

  /** The event behind a call; a yield closes the assistant scope silently. */
  function BodyOf(call: Call): Option<EventBody> {
    match call
    case StartTurn => Some(TurnStarted)
    case StartAssistant => Some(AssistantStarted)
    case SayAssistant(text) => Some(AssistantDelta(text))
    case CompleteAssistant => Some(AssistantCompleted)
    case YieldToAction => None
    case StartThinking => Some(ThinkingStarted)
    case SayThinking(text) => Some(ThinkingDelta(text))
    case CompleteThinking => Some(ThinkingCompleted)
    case RequestTool(id, name, ui) => Some(ToolCallRequested(id, name, ui))
    case AskPermission(id) => Some(PermissionRequested(id))
    case StartExecution(id, ui) => Some(ToolExecutionStarted(id, ui))
    case ReceiveResult(id, result, ui) => Some(ToolResultReceived(id, result, ui))
    case Finish(event) => Some(TerminalBody(event))
  }

  /** A new tool call needs an unused identity, a later step of it a bound one. */
  predicate IdentityFits(s: EmitterState, call: Call) {
    match call
    case RequestTool(id, _, _) => id !in s.seen
    case AskPermission(id) => id in s.bindings
    case StartExecution(id, _) => id in s.bindings
    case ReceiveResult(id, _, _) => id in s.bindings
    case _ => true
  }

  function BindingsAfter(s: EmitterState, call: Call): map<ToolCallId, ToolCallId> {
    match call
    case RequestTool(id, _, _) => s.bindings[id := id]
    case ReceiveResult(id, _, _) => s.bindings - {id}
    case Finish(_) => map[]
    case _ => s.bindings
  }

  function SeenAfter(s: EmitterState, call: Call): set<ToolCallId> {
    match call
    case RequestTool(id, _, _) => s.seen + {id}
    case Finish(_) => {}
    case _ => s.seen
  }

  /** The state the integrity layer is asked in. */
  function Prepared(s: EmitterState, call: Call): Phases {
    if call.Finish? then ScopesClosed(s.integrity, call.event) else s.integrity
  }

  /** The emitter and the integrity layer have no objection to a call. */
  predicate Legal(s: EmitterState, call: Call) {
    IdentityFits(s, call) && Integrity.Allows(Prepared(s, call), TransitionOf(call))
  }

  /** The emitter after a legal call went through. */
  function Moved(s: EmitterState, call: Call): EmitterState
    requires Legal(s, call)
  {
    EmitterState(if BodyOf(call).Some? then SaturatingSucc(s.nextSequence) else s.nextSequence,
                 Integrity.After(Prepared(s, call), TransitionOf(call)),
                 BindingsAfter(s, call),
                 SeenAfter(s, call))
  }

  predicate Accepts(s: EmitterState, call: Call, transport: Transport) {
    transport.ready && Legal(s, call) && (BodyOf(call).Some? ==> transport.delivers)
  }

  /** One emitter call: it publishes and moves on, or leaves everything as it was. */
  function Emit(r: Run, call: Call, transport: Transport): Run {
    if Accepts(r.state, call, transport) then
      Run(Moved(r.state, call), if BodyOf(call).Some? then r.word + [BodyOf(call).value] else r.word)
    else r
  }

  type Bindings = map<ToolCallId, ToolCallId>
  type Tools = map<ToolCallId, Integrity.ToolPhase>

  lemma RequestAgrees(b: Bindings, seen: set<ToolCallId>, tools: Tools, id: ToolCallId)
    requires ToolsAgree(b, seen, tools) && id !in seen
    ensures ToolsAgree(b[id := id], seen + {id}, tools[id := Integrity.Requested])
  {
  }

  lemma AdvanceAgrees(b: Bindings, seen: set<ToolCallId>, tools: Tools, id: ToolCallId, p: Integrity.ToolPhase)
    requires ToolsAgree(b, seen, tools) && id in b && !p.Closed?
    ensures ToolsAgree(b, seen, tools[id := p])
  {
  }

  lemma CloseAgrees(b: Bindings, seen: set<ToolCallId>, tools: Tools, id: ToolCallId, p: Integrity.ToolPhase)
    requires ToolsAgree(b, seen, tools) && id in b && p.Closed?
    ensures ToolsAgree(b - {id}, seen, tools[id := p])
  {
  }

  lemma MoveAgrees(s: EmitterState, call: Call)
    requires ToolsAgree(s.bindings, s.seen, s.integrity.tools) && Legal(s, call) && !call.Finish?
    ensures ToolsAgree(Moved(s, call).bindings, Moved(s, call).seen, Moved(s, call).integrity.tools)
  {
    var tools := s.integrity.tools;
    match call {
      case RequestTool(id, _, _) => RequestAgrees(s.bindings, s.seen, tools, id);
      case AskPermission(id) => AdvanceAgrees(s.bindings, s.seen, tools, id, Integrity.Permission);
      case StartExecution(id, _) => AdvanceAgrees(s.bindings, s.seen, tools, id, Integrity.Executing);
      case ReceiveResult(id, _, _) => CloseAgrees(s.bindings, s.seen, tools, id, Moved(s, call).integrity.tools[id]);
      case _ =>
    }
  }

  /** Every call, accepted or refused, keeps a run sound. */
  lemma EmitKeepsSound(r: Run, call: Call, transport: Transport)
    requires Sound(r)
    ensures Sound(Emit(r, call, transport))
  {
    if Accepts(r.state, call, transport) && !call.Finish? {
      MoveAgrees(r.state, call);
    }
  }

  class TurnEventEmitter {
    const bus: EventBus
    const sessionId: string
    const turnId: string
    const requireTransport: bool
    var nextSequence: nat
    var integrity: Integrity.TurnIntegrity
    var toolBindings: map<ToolCallId, ToolCallId>
    var seenToolIds: set<ToolCallId>
    /** Everything published so far, in order. */
    ghost var word: seq<EventBody>

    ghost function View(): Run
      reads this, integrity
    {
      Run(EmitterState(nextSequence, integrity.View(), toolBindings, seenToolIds), word)
    }

    ghost predicate Valid()
      reads this, bus
    {
      && (forall id | id in toolBindings :: toolBindings[id] == id && id in seenToolIds)
      && bus.View().Valid()
    }

    /** How the transport would answer a call made now. */
    function Answer(): Transport
      reads this, bus
    {
      Transport(!requireTransport || bus.HasTurnSubscriber(turnId),
                !requireTransport || bus.View().Connected(turnId))
    }

    /** The next event for this body, as it goes to the bus. */
    function Stamped(body: EventBody): SemanticEvent
      reads this
    {
      SemanticEvent(sessionId, turnId, nextSequence, body)
    }

    /** The bus after `body` was offered to it. */
    ghost function Offered(b: BusState, event: SemanticEvent): BusState {
      if requireTransport then
        var sent := b.AfterPublishTurn(event);
        if b.Connected(event.turnId) then sent.AfterPublishGlobal(event) else sent
      else
        var shown := b.AfterPublishGlobal(event);
        if event.turnId in b.senders then shown.AfterPublishTurn(event) else shown
    }

    /** The contract of every emitter call. */
    twostate predicate Performed(call: Call, ok: bool)
      reads this, integrity, bus
    {
      var before := old(View());
      && ok == Accepts(before.state, call, old(Answer()))
      && View() == Emit(before, call, old(Answer()))
      && bus.View() == (if old(Answer()).ready && Legal(before.state, call) && BodyOf(call).Some?
                        then Offered(old(bus.View()), old(Stamped(BodyOf(call).value)))
                        else old(bus.View()))
      && (old(bus.View().Connected(turnId)) ==> bus.View().Connected(turnId))
    }

    constructor (bus: EventBus, sessionId: string, turnId: string, requireTransport: bool)
      requires bus.View().Valid()
      ensures Valid() && View() == FreshRun
      ensures this.bus == bus && this.sessionId == sessionId
      ensures this.turnId == turnId && this.requireTransport == requireTransport
    {
      this.bus, this.sessionId, this.turnId := bus, sessionId, turnId;
      this.requireTransport := requireTransport;
      nextSequence := 0;
      integrity := new Integrity.TurnIntegrity();
      toolBindings, seenToolIds, word := map[], {}, [];
    }

    predicate IsTerminal()
      reads this, integrity
    {
      integrity.phase == Integrity.Terminal
    }

    predicate TransportReady()
      reads this, bus
    {
      !requireTransport || bus.HasTurnSubscriber(turnId)
    }

    /** Offers one event to the transport; the emitter itself only records it. */
    method Publish(body: EventBody) returns (ok: bool)
      requires bus.View().Valid()
      modifies this`word, bus
      ensures bus.View().Valid()
      ensures ok == old(Answer()).delivers
      ensures bus.View() == Offered(old(bus.View()), old(Stamped(body)))
      ensures old(bus.View().Connected(turnId)) ==> bus.View().Connected(turnId)
      ensures word == if ok then old(word) + [body] else old(word)
    {
      var event := Stamped(body);
      if requireTransport {
        ok := bus.PublishTurn(event);
        if ok { bus.PublishGlobal(event); }
      } else {
        bus.PublishGlobal(event);
        if bus.HasTurnSubscriber(turnId) {
          var _ := bus.PublishTurn(event);
        }
        ok := true;
      }
      if ok { word := word + [body]; }
    }

    /** Publishes an event together with the integrity state it leads to; a refused event changes nothing. */
    method Advance(candidate: Integrity.TurnIntegrity, body: EventBody) returns (ok: bool)
      requires bus.View().Valid()
      modifies this`word, this`integrity, this`nextSequence, bus
      ensures bus.View().Valid() && ok == old(Answer()).delivers
      ensures bus.View() == Offered(old(bus.View()), old(Stamped(body)))
      ensures old(bus.View().Connected(turnId)) ==> bus.View().Connected(turnId)
      ensures integrity == (if ok then candidate else old(integrity))
      ensures nextSequence == if ok then SaturatingSucc(old(nextSequence)) else old(nextSequence)
      ensures word == if ok then old(word) + [body] else old(word)
    {
      ok := Publish(body);
      if ok { integrity, nextSequence := candidate, SaturatingSucc(nextSequence); }
    }

    method EnsureTurnStarted() returns (ok: bool)
      requires Valid()
      modifies this, bus
      ensures Valid()
      ensures old(View().state.integrity.phase).NotStarted? ==> Performed(StartTurn, ok)
      ensures !old(View().state.integrity.phase).NotStarted? ==>
        ok == old(View().state.integrity.phase).Active? && View() == old(View()) && bus.View() == old(bus.View())
    {
      match integrity.phase {
        case NotStarted => ok := TurnStarted();
        case Active => ok := true;
        case Terminal => ok := false;
      }
    }

    method TurnStarted() returns (ok: bool)
      requires Valid()
      modifies this, bus
      ensures Valid() && Performed(StartTurn, ok)
    {
      ok := TransportReady();
      if ok {
        var candidate := new Integrity.TurnIntegrity.CloneOf(integrity);
        var v := candidate.TurnStarted();
        ok := v.Accepted?;
        if ok {
          ok := Advance(candidate, Events.TurnStarted);
        }
      }
    }

    method AssistantStarted() returns (ok: bool)
      requires Valid()
      modifies this, bus
      ensures Valid() && Performed(StartAssistant, ok)
    {
      ok := TransportReady();
      if ok {
        var candidate := new Integrity.TurnIntegrity.CloneOf(integrity);
        var v := candidate.AssistantStarted();
        ok := v.Accepted?;
        if ok {
          ok := Advance(candidate, Events.AssistantStarted);
        }
      }
    }

    method AssistantDelta(text: string) returns (ok: bool)
      requires Valid()
      modifies this, bus
      ensures Valid() && Performed(SayAssistant(text), ok)
    {
      ok := TransportReady();
      if ok {
        var v := integrity.AssistantDelta();
        ok := v.Accepted?;
        if ok {
          ok := Publish(Events.AssistantDelta(text));
          if ok { nextSequence := SaturatingSucc(nextSequence); }
        }
      }
    }

    method AssistantCompleted() returns (ok: bool)
      requires Valid()
      modifies this, bus
      ensures Valid() && Performed(CompleteAssistant, ok)
    {
      ok := TransportReady();
      if ok {
        var candidate := new Integrity.TurnIntegrity.CloneOf(integrity);
        var v := candidate.AssistantCompleted();
        ok := v.Accepted?;
        if ok {
          ok := Advance(candidate, Events.AssistantCompleted);
        }
      }
    }

    method AssistantYieldsToAction() returns (ok: bool)
      requires Valid()
      modifies this, bus
      ensures Valid() && Performed(YieldToAction, ok)
    {
      ok := TransportReady();
      if ok {
        var candidate := new Integrity.TurnIntegrity.CloneOf(integrity);
        var v := candidate.AssistantYieldsToAction();
        ok := v.Accepted?;
        if ok { integrity := candidate; }
      }
    }

    method ThinkingStarted() returns (ok: bool)
      requires Valid()
      modifies this, bus
      ensures Valid() && Performed(StartThinking, ok)
    {
      ok := TransportReady();
      if ok {
        var candidate := new Integrity.TurnIntegrity.CloneOf(integrity);
        var v := candidate.ThinkingStarted();
        ok := v.Accepted?;
        if ok {
          ok := Advance(candidate, Events.ThinkingStarted);
        }
      }
    }

    method ThinkingDelta(text: string) returns (ok: bool)
      requires Valid()
      modifies this, bus
      ensures Valid() && Performed(SayThinking(text), ok)
    {
      ok := TransportReady();
      if ok {
        var v := integrity.ThinkingDelta();
        ok := v.Accepted?;
        if ok {
          ok := Publish(Events.ThinkingDelta(text));
          if ok { nextSequence := SaturatingSucc(nextSequence); }
        }
      }
    }

    method ThinkingCompleted() returns (ok: bool)
      requires Valid()
      modifies this, bus
      ensures Valid() && Performed(CompleteThinking, ok)
    {
      ok := TransportReady();
      if ok {
        var candidate := new Integrity.TurnIntegrity.CloneOf(integrity);
        var v := candidate.ThinkingCompleted();
        ok := v.Accepted?;
        if ok {
          ok := Advance(candidate, Events.ThinkingCompleted);
        }
      }
    }

    /** Marks an identity as used in this turn and binds it; refuses an identity that was used before. */
    method BindToolIdentity(id: ToolCallId) returns (bound: bool)
      modifies this`toolBindings, this`seenToolIds
      ensures bound <==> id !in old(seenToolIds)
      ensures toolBindings == if bound then old(toolBindings)[id := id] else old(toolBindings)
      ensures seenToolIds == if bound then old(seenToolIds) + {id} else old(seenToolIds)
    {
      if id in seenToolIds { return false; }
      seenToolIds := seenToolIds + {id};
      toolBindings := toolBindings[id := id];
      bound := true;
    }

    method RollbackToolBinding(id: ToolCallId)
      modifies this`toolBindings, this`seenToolIds
      ensures toolBindings == old(toolBindings) - {id} && seenToolIds == old(seenToolIds) - {id}
    {
      toolBindings := toolBindings - {id};
      seenToolIds := seenToolIds - {id};
    }

    /** Binds the identity of a new call and asks a copy of the integrity layer; a refusal undoes the binding. */
    method ReserveTool(id: ToolCallId) returns (candidate: Integrity.TurnIntegrity, ok: bool)
      requires Valid()
      modifies this`toolBindings, this`seenToolIds
      ensures Valid() && fresh(candidate)
      ensures ok <==> id !in old(seenToolIds) && Integrity.Allows(integrity.View(), Integrity.RequestTool(id))
      ensures ok ==> candidate.View() == Integrity.After(integrity.View(), Integrity.RequestTool(id))
      ensures toolBindings == if ok then old(toolBindings)[id := id] else old(toolBindings)
      ensures seenToolIds == if ok then old(seenToolIds) + {id} else old(seenToolIds)
      ensures ok ==> toolBindings - {id} == old(toolBindings) && seenToolIds - {id} == old(seenToolIds)
    {
      candidate := new Integrity.TurnIntegrity.CloneOf(integrity);
      ok := BindToolIdentity(id);
      if ok {
        assert toolBindings - {id} == old(toolBindings) && seenToolIds - {id} == old(seenToolIds);
        var v := candidate.ToolCallRequested(id);
        ok := v.Accepted?;
        if !ok { RollbackToolBinding(id); }
      }
    }

    method ToolCallRequested(id: ToolCallId, name: string, ui: Option<ToolUi>) returns (ok: bool)
      requires Valid()
      modifies this, bus
      ensures Valid() && Performed(RequestTool(id, name, ui), ok)
    {
      ok := TransportReady() && id != "";
      if ok {
        var candidate;
        candidate, ok := ReserveTool(id);
        if ok {
          ok := Advance(candidate, Events.ToolCallRequested(id, name, ui));
          if !ok { RollbackToolBinding(id); }
        }
      }
    }

    method PermissionRequested(id: ToolCallId) returns (ok: bool)
      requires Valid()
      modifies this, bus
      ensures Valid() && Performed(AskPermission(id), ok)
    {
      ok := TransportReady() && id in toolBindings;
      if ok {
        var semanticId := toolBindings[id];
        var candidate := new Integrity.TurnIntegrity.CloneOf(integrity);
        var v := candidate.PermissionRequested(semanticId);
        ok := v.Accepted?;
        if ok {
          ok := Advance(candidate, Events.PermissionRequested(semanticId));
        }
      }
    }

    method ToolExecutionStarted(id: ToolCallId, ui: Option<ToolUi>) returns (ok: bool)
      requires Valid()
      modifies this, bus
      ensures Valid() && Performed(StartExecution(id, ui), ok)
    {
      ok := TransportReady() && id in toolBindings;
      if ok {
        var semanticId := toolBindings[id];
        var candidate := new Integrity.TurnIntegrity.CloneOf(integrity);
        var v := candidate.ToolExecutionStarted(semanticId);
        ok := v.Accepted?;
        if ok {
          ok := Advance(candidate, Events.ToolExecutionStarted(semanticId, ui));
        }
      }
    }

    method ToolResultReceived(id: ToolCallId, result: string, ui: Option<ToolUi>) returns (ok: bool)
      requires Valid()
      modifies this, bus
      ensures Valid() && Performed(ReceiveResult(id, result, ui), ok)
    {
      ok := TransportReady() && id in toolBindings;
      if ok {
        var semanticId := toolBindings[id];
        var candidate := new Integrity.TurnIntegrity.CloneOf(integrity);
        var v := candidate.ToolResultReceived(semanticId);
        ok := v.Accepted?;
        if ok {
          ok := Advance(candidate, Events.ToolResultReceived(semanticId, result, ui));
          if ok {
            toolBindings := toolBindings - {id};
          }
        }
      }
    }

    /** Closes every open scope of a candidate state for a cancelled or failed turn. */
    method CloseScopes(candidate: Integrity.TurnIntegrity, reason: Integrity.ToolTerminalReason)
      returns (v: Integrity.Verdict)
      requires reason.ByTurnCancelled? || reason.ByTurnFailed?
      modifies candidate
      ensures v.Accepted? <==> old(candidate.View()).phase.Active?
      ensures v.Accepted? ==> candidate.View() == old(candidate.View()).(thinking := false, assistant := false,
        tools := Integrity.Aborted(old(candidate.tools), old(candidate.tools).Keys, reason))
    {
      if candidate.thinking {
        v := candidate.ThinkingCompleted();
        if v.Refused? { return; }
      }
      if candidate.assistant {
        v := candidate.AssistantCompleted();
        if v.Refused? { return; }
      }
      v := candidate.AbortOpenTools(reason);
    }

    /** The integrity state after a terminal event, computed on a copy. */
    method TerminalCandidate(event: Integrity.TerminalEvent)
      returns (candidate: Integrity.TurnIntegrity, v: Integrity.Verdict)
      ensures fresh(candidate)
      ensures var closed := ScopesClosed(integrity.View(), event);
        && (v.Accepted? <==> Integrity.Allows(closed, Integrity.Finish(event)))
        && (v.Accepted? ==> candidate.View() == Integrity.After(closed, Integrity.Finish(event)))
    {
      candidate := new Integrity.TurnIntegrity.CloneOf(integrity);
      if !event.Completed? {
        var reason := if event.Cancelled? then Integrity.ByTurnCancelled else Integrity.ByTurnFailed;
        v := CloseScopes(candidate, reason);
        if v.Refused? { return; }
      }
      v := candidate.FinishTerminalAfterScopes(event);
    }

    /** A terminal event: a cancelled or failed turn first closes every open scope. */
    method FinishTerminal(event: Integrity.TerminalEvent) returns (ok: bool)
      requires Valid()
      modifies this, bus
      ensures Valid() && Performed(Finish(event), ok)
    {
      ok := TransportReady();
      if ok {
        var candidate, v := TerminalCandidate(event);
        ok := v.Accepted?;
        assert ok <==> Legal(View().state, Finish(event));
        if ok {
          ok := Advance(candidate, TerminalBody(event));
          if ok { toolBindings, seenToolIds := map[], {}; }
        }
      }
    }
  }
}
