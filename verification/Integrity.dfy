/** The turn integrity state machine: which semantic events may be emitted next. */
module Integrity {
  import opened Prelude
  import opened Events

  datatype TurnPhase = NotStarted | Active | Terminal

  datatype ToolTerminalReason = ByResult | ByPermissionDenied | ByTurnCancelled | ByTurnFailed

  datatype ToolPhase = Requested | Permission | Executing | Closed(reason: ToolTerminalReason)

  datatype TerminalEvent = Cancelled | Failed | Completed

  /** The fields of a `TurnIntegrity`, as a value. */
  datatype State = State(
    phase: TurnPhase,
    thinking: bool,
    assistant: bool,
    tools: map<ToolCallId, ToolPhase>,
    workStarted: bool)

  const FreshState := State(NotStarted, false, false, map[], false)

  /** The calls of the integrity layer. */
  datatype Transition =
    | StartTurn
    | StartAssistant
    | DeltaAssistant
    | CompleteAssistant
    | YieldAssistant
    | StartThinking
    | DeltaThinking
    | CompleteThinking
    | RequestTool(id: ToolCallId)
    | AskPermission(id: ToolCallId)
    | StartExecution(id: ToolCallId)
    | ReceiveResult(id: ToolCallId)
    | AbortTools(reason: ToolTerminalReason)
    | Finish(event: TerminalEvent)

  function OpenTools(s: State): set<ToolCallId> {
    set id | id in s.tools && !s.tools[id].Closed?
  }

  /** The tools with every open one among `which` closed for `reason`. */
  function Aborted(tools: map<ToolCallId, ToolPhase>, which: set<ToolCallId>, reason: ToolTerminalReason)
    : map<ToolCallId, ToolPhase>
  {
    map id | id in tools :: if id in which && !tools[id].Closed? then Closed(reason) else tools[id]
  }

  /** When a transition is accepted. */
  predicate Allows(s: State, t: Transition) {
    && s.phase == (if t.StartTurn? then NotStarted else Active)
    && match t {
      case StartTurn => true
      case StartAssistant => !s.assistant && !s.thinking
      case DeltaAssistant => s.assistant && !s.thinking
      case CompleteAssistant => s.assistant && !s.thinking
      case YieldAssistant => s.assistant && !s.thinking
      case StartThinking => s.assistant && !s.thinking
      case DeltaThinking => s.thinking
      case CompleteThinking => s.thinking
      case RequestTool(id) => id != "" && !s.assistant && !s.thinking && id !in s.tools
      case AskPermission(id) => id in s.tools && s.tools[id].Requested?
      case StartExecution(id) => id in s.tools && (s.tools[id].Requested? || s.tools[id].Permission?)
      case ReceiveResult(id) => id in s.tools && (s.tools[id].Executing? || s.tools[id].Permission?)
      case AbortTools(reason) => reason.ByTurnCancelled? || reason.ByTurnFailed?
      case Finish(event) =>
        (event.Completed? ==> s.workStarted) && !s.assistant && !s.thinking && OpenTools(s) == {}
    }
  }

  /** The state an accepted transition leads to. */
  function After(s: State, t: Transition): State
    requires Allows(s, t)
  {
    match t
    case StartTurn => s.(phase := Active)
    case StartAssistant => s.(assistant := true, workStarted := true)
    case DeltaAssistant => s
    case CompleteAssistant => s.(assistant := false)
    case YieldAssistant => s.(assistant := false)
    case StartThinking => s.(thinking := true)
    case DeltaThinking => s
    case CompleteThinking => s.(thinking := false)
    case RequestTool(id) => s.(tools := s.tools[id := Requested], workStarted := true)
    case AskPermission(id) => s.(tools := s.tools[id := Permission])
    case StartExecution(id) => s.(tools := s.tools[id := Executing])
    case ReceiveResult(id) =>
      s.(tools := s.tools[id := Closed(if s.tools[id].Executing? then ByResult else ByPermissionDenied)])
    case AbortTools(reason) =>
      s.(tools := Aborted(s.tools, s.tools.Keys, reason))
    case Finish(_) => s.(phase := Terminal)
  }

  /** `Err` of the integrity layer: the messages are not modelled. */
  datatype Verdict = Accepted | Refused

  /** What a call of the integrity layer does: it moves along `After` or changes nothing. */
  ghost predicate Performs(before: State, t: Transition, after: State, v: Verdict) {
    && (v.Accepted? <==> Allows(before, t))
    && after == (if Allows(before, t) then After(before, t) else before)
  }

  class TurnIntegrity {
    var phase: TurnPhase
    var thinking: bool
    var assistant: bool
    var tools: map<ToolCallId, ToolPhase>
    var workStarted: bool

    function View(): State
      reads this
    {
      State(phase, thinking, assistant, tools, workStarted)
    }

    constructor ()
      ensures View() == FreshState
    {
      phase, thinking, assistant, tools, workStarted := NotStarted, false, false, map[], false;
    }

    constructor CloneOf(other: TurnIntegrity)
      ensures View() == other.View()
    {
      phase, thinking, assistant := other.phase, other.thinking, other.assistant;
      tools, workStarted := other.tools, other.workStarted;
    }

    method TurnStarted() returns (v: Verdict)
      modifies this
      ensures Performs(old(View()), StartTurn, View(), v)
    {
      if phase != NotStarted { return Refused; }
      phase := Active;
      v := Accepted;
    }

    method AssistantStarted() returns (v: Verdict)
      modifies this
      ensures Performs(old(View()), StartAssistant, View(), v)
    {
      if phase != Active || assistant || thinking { return Refused; }
      assistant := true;
      workStarted := true;
      v := Accepted;
    }

    method AssistantDelta() returns (v: Verdict)
      ensures v.Accepted? <==> Allows(View(), DeltaAssistant)
    {
      v := if phase != Active || !assistant || thinking then Refused else Accepted;
    }

    method AssistantCompleted() returns (v: Verdict)
      modifies this
      ensures Performs(old(View()), CompleteAssistant, View(), v)
    {
      if phase != Active || !assistant || thinking { return Refused; }
      assistant := false;
      v := Accepted;
    }

    method AssistantYieldsToAction() returns (v: Verdict)
      modifies this
      ensures Performs(old(View()), YieldAssistant, View(), v)
    {
      if phase != Active || !assistant || thinking { return Refused; }
      assistant := false;
      v := Accepted;
    }

    method ThinkingStarted() returns (v: Verdict)
      modifies this
      ensures Performs(old(View()), StartThinking, View(), v)
    {
      if phase != Active || !assistant || thinking { return Refused; }
      thinking := true;
      v := Accepted;
    }

    method ThinkingDelta() returns (v: Verdict)
      ensures v.Accepted? <==> Allows(View(), DeltaThinking)
    {
      v := if phase != Active || !thinking then Refused else Accepted;
    }

    method ThinkingCompleted() returns (v: Verdict)
      modifies this
      ensures Performs(old(View()), CompleteThinking, View(), v)
    {
      if phase != Active || !thinking { return Refused; }
      thinking := false;
      v := Accepted;
    }

    method ToolCallRequested(id: ToolCallId) returns (v: Verdict)
      modifies this
      ensures Performs(old(View()), RequestTool(id), View(), v)
    {
      if phase != Active || id == "" || assistant || thinking || id in tools { return Refused; }
      tools := tools[id := Requested];
      workStarted := true;
      v := Accepted;
    }

    method PermissionRequested(id: ToolCallId) returns (v: Verdict)
      modifies this
      ensures Performs(old(View()), AskPermission(id), View(), v)
    {
      if phase != Active || id !in tools || !tools[id].Requested? { return Refused; }
      tools := tools[id := Permission];
      v := Accepted;
    }

    method ToolExecutionStarted(id: ToolCallId) returns (v: Verdict)
      modifies this
      ensures Performs(old(View()), StartExecution(id), View(), v)
    {
      if phase != Active || id !in tools { return Refused; }
      match tools[id] {
        case Requested | Permission =>
          tools := tools[id := Executing];
          v := Accepted;
        case _ => v := Refused;
      }
    }

    method ToolResultReceived(id: ToolCallId) returns (v: Verdict)
      modifies this
      ensures Performs(old(View()), ReceiveResult(id), View(), v)
    {
      if phase != Active || id !in tools { return Refused; }
      match tools[id] {
        case Executing =>
          tools := tools[id := Closed(ByResult)];
          v := Accepted;
        case Permission =>
          tools := tools[id := Closed(ByPermissionDenied)];
          v := Accepted;
        case _ => v := Refused;
      }
    }

    method AbortOpenTools(reason: ToolTerminalReason) returns (v: Verdict)
      modifies this
      ensures Performs(old(View()), AbortTools(reason), View(), v)
    {
      if phase != Active || reason.ByResult? || reason.ByPermissionDenied? { return Refused; }
      var was := tools;
      var todo := was.Keys;
      while todo != {}
        invariant todo <= was.Keys
        invariant tools == Aborted(was, was.Keys - todo, reason)
        invariant phase == old(phase) && thinking == old(thinking)
        invariant assistant == old(assistant) && workStarted == old(workStarted)
        decreases todo
      {
        var id :| id in todo;
        assert was.Keys - (todo - {id}) == (was.Keys - todo) + {id};
        if !tools[id].Closed? { tools := tools[id := Closed(reason)]; }
        todo := todo - {id};
      }
      assert was.Keys - {} == was.Keys;
      v := Accepted;
    }

    method FinishTerminalAfterScopes(event: TerminalEvent) returns (v: Verdict)
      modifies this
      ensures Performs(old(View()), Finish(event), View(), v)
    {
      if phase != Active { return Refused; }
      if event.Completed? && !workStarted { return Refused; }
      if assistant || thinking || OpenTools(View()) != {} { return Refused; }
      phase := Terminal;
      v := Accepted;
    }
  }
}
