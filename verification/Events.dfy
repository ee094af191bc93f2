/** The semantic events of one turn and the context each of them carries. */
module Events {
  import opened Prelude

  type ToolCallId = string

  datatype ToolUiStatus = UiPending | UiRunning | UiSucceeded | UiFailed

  datatype ToolUi = ToolUi(kind: string, status: ToolUiStatus)

  datatype EventBody =
    | TurnStarted
    | AssistantStarted
    | AssistantDelta(text: string)
    | AssistantCompleted
    | ThinkingStarted
    | ThinkingDelta(text: string)
    | ThinkingCompleted
    | ToolCallRequested(id: ToolCallId, name: string, ui: Option<ToolUi>)
    | PermissionRequested(id: ToolCallId)
    | ToolExecutionStarted(id: ToolCallId, ui: Option<ToolUi>)
    | ToolResultReceived(id: ToolCallId, result: string, ui: Option<ToolUi>)
    | TurnCancelled
    | TurnFailed
    | TurnCompleted
  {
    predicate IsTerminal() {
      TurnCancelled? || TurnFailed? || TurnCompleted?
    }
  }

  /** The text of the assistant that a word shows. */
  function TextShown(word: seq<EventBody>): string {
    if word == [] then ""
    else
      var b := word[|word| - 1];
      TextShown(word[..|word| - 1]) + if b.AssistantDelta? then b.text else ""
  }

  /** The reasoning that a word shows. */
  function ThoughtShown(word: seq<EventBody>): string {
    if word == [] then ""
    else
      var b := word[|word| - 1];
      ThoughtShown(word[..|word| - 1]) + if b.ThinkingDelta? then b.text else ""
  }

  /** The text since the assistant last started. */
  function LastSaid(word: seq<EventBody>): string {
    if word == [] then ""
    else
      var b := word[|word| - 1];
      if b.AssistantStarted? then ""
      else LastSaid(word[..|word| - 1]) + if b.AssistantDelta? then b.text else ""
  }

  lemma ShownSnoc(word: seq<EventBody>, b: EventBody)
    ensures TextShown(word + [b]) == TextShown(word) + if b.AssistantDelta? then b.text else ""
    ensures ThoughtShown(word + [b]) == ThoughtShown(word) + if b.ThinkingDelta? then b.text else ""
    ensures LastSaid(word + [b])
         == if b.AssistantStarted? then "" else LastSaid(word) + if b.AssistantDelta? then b.text else ""
  {
    assert (word + [b])[..|word|] == word;
  }

  lemma {:induction false} ShownAppend(a: seq<EventBody>, b: seq<EventBody>)
    ensures TextShown(a + b) == TextShown(a) + TextShown(b)
    ensures ThoughtShown(a + b) == ThoughtShown(a) + ThoughtShown(b)
    ensures LastSaid(a + b) == if Starts(b) then LastSaid(b) else LastSaid(a) + LastSaid(b)
  {
    if b == [] {
      assert a + b == a && TextShown(a) + "" == TextShown(a);
      assert ThoughtShown(a) + "" == ThoughtShown(a) && LastSaid(a) + "" == LastSaid(a);
    } else {
      var n := |b| - 1;
      var t := b[n];
      ShownAppend(a, b[..n]);
      assert a + b == (a + b[..n]) + [t] && b == b[..n] + [t];
      ShownSnoc(a + b[..n], t);
      ShownSnoc(b[..n], t);
      StartsSnoc(b[..n], t);
      Associative(TextShown(a), TextShown(b[..n]), if t.AssistantDelta? then t.text else "");
      Associative(ThoughtShown(a), ThoughtShown(b[..n]), if t.ThinkingDelta? then t.text else "");
      Associative(LastSaid(a), LastSaid(b[..n]), if t.AssistantDelta? then t.text else "");
    }
  }

  /** The assistant starts in these events. */
  predicate Starts(bodies: seq<EventBody>) {
    exists i :: 0 <= i < |bodies| && bodies[i].AssistantStarted?
  }

  lemma StartsSnoc(bodies: seq<EventBody>, b: EventBody)
    ensures Starts(bodies + [b]) <==> Starts(bodies) || b.AssistantStarted?
  {
    if Starts(bodies) {
      var i :| 0 <= i < |bodies| && bodies[i].AssistantStarted?;
      assert (bodies + [b])[i] == bodies[i];
    }
    assert (bodies + [b])[|bodies|] == b;
  }

  datatype SemanticEvent = SemanticEvent(sessionId: string, turnId: string, sequence: nat, body: EventBody)

  /** The events a turn's transport carries for a word of event bodies: numbered from zero, saturating. */
  function Stamp(sessionId: string, turnId: string, word: seq<EventBody>): (events: seq<SemanticEvent>) {
    seq(|word|, i requires 0 <= i < |word| => SemanticEvent(sessionId, turnId, Saturated(i), word[i]))
  }
}
