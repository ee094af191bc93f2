/**
 * The host of a turn: the model, the tools, the permissions, the actions and the cancellation. Its answers are
 * arbitrary. It remembers what it was asked and what it answered.
 */
module Hosts {
  import opened Prelude
  import opened Events
  import H = History
  import opened ModelProjection

  datatype ActionAnswer = EndsRound(userText: string) | Consumed | ActionCancelled | ActionFailed

  datatype Decision = Allow | Reject(message: string) | PermissionCancelled

  datatype ToolAnswer = ToolAnswer(content: string, isOk: bool, ui: Option<ToolUi>)

  /**
   * A question and its answer. A stream is opened on a prompt made from the messages of the history, when the turn has
   * appended these entries to it.
   */
  datatype Exchange =
    | CancelAsked(cancelled: bool)
    | StreamOpened(messages: seq<H.Message>, log: seq<H.HistoryEntry>, stream: Result<seq<StreamItem>, LlmError>)
    | SupportAsked(name: string, supported: bool)
    | ActionAsked(call: PendingToolCall, action: ActionAnswer)
    | UiAsked(call: PendingToolCall, ui: Option<ToolUi>)
    | PermissionNeeded(call: PendingToolCall, needed: bool)
    | PermissionAsked(call: PendingToolCall, decision: Decision)
    | ToolsSought(call: PendingToolCall, any: bool)
    | ToolAsked(call: PendingToolCall, answer: ToolAnswer)

  class Host {
    ghost var said: seq<Exchange>

    method IsCancelled() returns (cancelled: bool)
      modifies this
      ensures said == old(said) + [CancelAsked(cancelled)]
    {
      cancelled := *;
      said := said + [CancelAsked(cancelled)];
    }

    method OpenStream(messages: seq<H.Message>, ghost log: seq<H.HistoryEntry>)
      returns (stream: Result<seq<StreamItem>, LlmError>)
      modifies this
      ensures said == old(said) + [StreamOpened(messages, log, stream)]
    {
      stream := *;
      said := said + [StreamOpened(messages, log, stream)];
    }

    method Supports(name: string) returns (supported: bool)
      modifies this
      ensures said == old(said) + [SupportAsked(name, supported)]
    {
      supported := *;
      said := said + [SupportAsked(name, supported)];
    }

    method HandleAction(call: PendingToolCall) returns (action: ActionAnswer)
      modifies this
      ensures said == old(said) + [ActionAsked(call, action)]
    {
      action := *;
      said := said + [ActionAsked(call, action)];
    }

    method UiModel(call: PendingToolCall) returns (ui: Option<ToolUi>)
      modifies this
      ensures said == old(said) + [UiAsked(call, ui)]
    {
      ui := *;
      said := said + [UiAsked(call, ui)];
    }

    method NeedsPermission(call: PendingToolCall) returns (needed: bool)
      modifies this
      ensures said == old(said) + [PermissionNeeded(call, needed)]
    {
      needed := *;
      said := said + [PermissionNeeded(call, needed)];
    }

    method RequestPermission(call: PendingToolCall) returns (decision: Decision)
      modifies this
      ensures said == old(said) + [PermissionAsked(call, decision)]
    {
      decision := *;
      said := said + [PermissionAsked(call, decision)];
    }

    method HasTools(ghost call: PendingToolCall) returns (any: bool)
      modifies this
      ensures said == old(said) + [ToolsSought(call, any)]
    {
      any := *;
      said := said + [ToolsSought(call, any)];
    }

    method CallTool(call: PendingToolCall) returns (answer: ToolAnswer)
      modifies this
      ensures said == old(said) + [ToolAsked(call, answer)]
    {
      answer := *;
      said := said + [ToolAsked(call, answer)];
    }
  }
}
