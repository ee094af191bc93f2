/** The far side of a turn's queue: sequence checking and projection into client notifications. */
module Projection {
  import opened Prelude
  import opened Events
  import opened TurnGrammar

  datatype Action =
    | Text(text: string)
    | Reasoning(text: string)
    | ToolCall(id: ToolCallId, ui: ToolUi)
    | ToolUpdate(id: ToolCallId, ui: ToolUi)
    | Stop
    | Ignore

  datatype Outcome =
    | Finished
    | TransportClosed
    | SequenceGap(expected: nat, actual: nat)
    | UnexpectedTurn(expectedTurn: string, actualTurn: string)
    | NotificationFailed

  class SequenceTracker {
    var next: Option<nat>

    constructor ()
      ensures Expected() == 0
    {
      next := None;
    }

    function Expected(): nat
      reads this
    {
      match next
      case None => 0
      case Some(n) => n
    }

    method Observe(sequence: nat) returns (ok: bool)
      modifies this
      ensures ok <==> sequence == old(Expected())
      ensures Expected() == if ok then SaturatingSucc(old(Expected())) else old(Expected())
    {
      var expected := Expected();
      if sequence != expected { return false; }
      next := Some(SaturatingSucc(expected));
      ok := true;
    }
  }

  function ActionOf(e: EventBody): Action {
    match e
    case AssistantDelta(text) => Text(text)
    case ThinkingDelta(text) => Reasoning(text)
    case ToolCallRequested(id, _, Some(ui)) => ToolCall(id, ui)
    case ToolExecutionStarted(id, Some(ui)) => ToolUpdate(id, ui)
    case ToolResultReceived(id, _, Some(ui)) => ToolUpdate(id, ui)
    case TurnCancelled => Stop
    case TurnFailed => Stop
    case TurnCompleted => Stop
    case _ => Ignore
  }

  function Actions(w: seq<EventBody>): seq<Action> {
    seq(|w|, i requires 0 <= i < |w| => ActionOf(w[i]))
  }

  // ---------- what the client is shown ----------

  /** The texts among some notifications, joined. */
  function TextNotified(actions: seq<Action>): string {
    if actions == [] then ""
    else
      var a := actions[|actions| - 1];
      TextNotified(actions[..|actions| - 1]) + if a.Text? then a.text else ""
  }

  function ReasoningNotified(actions: seq<Action>): string {
    if actions == [] then ""
    else
      var a := actions[|actions| - 1];
      ReasoningNotified(actions[..|actions| - 1]) + if a.Reasoning? then a.text else ""
  }

  /** The client is shown the assistant's text as text and its thinking as reasoning, complete and in order. */
  lemma {:induction false} ClientIsShownText(w: seq<EventBody>)
    ensures TextNotified(Actions(w)) == TextShown(w) && ReasoningNotified(Actions(w)) == ThoughtShown(w)
  {
    if w != [] {
      var n := |w| - 1;
      ClientIsShownText(w[..n]);
      assert Actions(w)[..n] == Actions(w[..n]);
    }
  }

  /** A card of a tool, as an event carries it: new with the request, updated afterwards. */
  function CardOf(e: EventBody): Option<(bool, ToolCallId, ToolUi)> {
    if e.ToolCallRequested? then e.ui.Map((ui: ToolUi) => (true, e.id, ui))
    else if e.ToolExecutionStarted? then e.ui.Map((ui: ToolUi) => (false, e.id, ui))
    else if e.ToolResultReceived? then e.ui.Map((ui: ToolUi) => (false, e.id, ui))
    else None
  }

  /** The client gets exactly the cards of the tools, each under its own call, and stops exactly at a terminal event. */
  lemma ClientIsShownTools(e: EventBody)
    ensures match CardOf(e)
      case Some((true, id, ui)) => ActionOf(e) == ToolCall(id, ui)
      case Some((false, id, ui)) => ActionOf(e) == ToolUpdate(id, ui)
      case None => !ActionOf(e).ToolCall? && !ActionOf(e).ToolUpdate?
    ensures ActionOf(e).Stop? <==> e.IsTerminal()
  {
  }

  /** How far the consumer gets: the first event it does not accept, or the terminal one, or the end of the queue. */
  function Consumed(events: seq<SemanticEvent>, turnId: string, notify: Action -> bool, from: nat): (k: nat)
    requires from <= |events|
    ensures from <= k <= |events|
    decreases |events| - from
  {
    if from == |events| then from
    else
      var e := events[from];
      if e.turnId == turnId && e.sequence == Saturated(from) && !e.body.IsTerminal() && notify(ActionOf(e.body))
      then Consumed(events, turnId, notify, from + 1)
      else from
  }

  /** What the consumer reports about the event it stopped at. */
  function Report(events: seq<SemanticEvent>, turnId: string, k: nat): Outcome
    requires k <= |events|
  {
    if k == |events| then TransportClosed
    else if events[k].turnId != turnId then UnexpectedTurn(turnId, events[k].turnId)
    else if events[k].sequence != Saturated(k) then SequenceGap(Saturated(k), events[k].sequence)
    else if events[k].body.IsTerminal() then Finished
    else NotificationFailed
  }

  function Bodies(events: seq<SemanticEvent>): seq<EventBody> {
    seq(|events|, i requires 0 <= i < |events| => events[i].body)
  }

  lemma ActionsSnoc(events: seq<SemanticEvent>, k: nat)
    requires k < |events|
    ensures Actions(Bodies(events[..k + 1])) == Actions(Bodies(events[..k])) + [ActionOf(events[k].body)]
  {
    assert events[..k + 1] == events[..k] + [events[k]];
  }

  /** Checks and projects the events of one turn's queue, which closes after the last of them. */
  method ProjectEvents(events: seq<SemanticEvent>, turnId: string, notify: Action -> bool)
    returns (outcome: Outcome, notified: seq<Action>, cancelled: bool)
    ensures var k := Consumed(events, turnId, notify, 0);
      && outcome == Report(events, turnId, k)
      && notified == Actions(Bodies(events[..k]))
      && cancelled == !outcome.Finished?
  {
    var tracker := new SequenceTracker();
    var queue := events;
    notified := [];
    ghost var taken := 0;
    while queue != []
      invariant 0 <= taken <= |events| && queue == events[taken..]
      invariant tracker.Expected() == Saturated(taken)
      invariant notified == Actions(Bodies(events[..taken]))
      invariant Consumed(events, turnId, notify, 0) == Consumed(events, turnId, notify, taken)
      decreases |queue|
    {
      var event := queue[0];
      queue := queue[1..];
      if event.turnId != turnId {
        return UnexpectedTurn(turnId, event.turnId), notified, true;
      }
      var expected := tracker.Expected();
      var inOrder := tracker.Observe(event.sequence);
      if !inOrder {
        return SequenceGap(expected, event.sequence), notified, true;
      }
      var action := ActionOf(event.body);
      if action.Stop? {
        return Finished, notified, false;
      }
      if !notify(action) {
        return NotificationFailed, notified, true;
      }
      ActionsSnoc(events, taken);
      notified := notified + [action];
      taken := taken + 1;
    }
    outcome, cancelled := TransportClosed, true;
  }

  lemma ConsumedReaches(events: seq<SemanticEvent>, turnId: string, notify: Action -> bool, from: nat, k: nat)
    requires from <= k <= |events|
    requires forall i | from <= i < k :: events[i].turnId == turnId && events[i].sequence == Saturated(i)
                                      && !events[i].body.IsTerminal() && notify(ActionOf(events[i].body))
    requires k < |events| ==> events[k].turnId != turnId || events[k].sequence != Saturated(k)
                              || events[k].body.IsTerminal()
    ensures Consumed(events, turnId, notify, from) == k
    decreases k - from
  {
    if from < k {
      ConsumedReaches(events, turnId, notify, from + 1, k);
    }
  }

  /** Every finished word of the emitter is accepted, and everything before its terminal event is shown in order. */
  lemma StampedWordIsAccepted(sessionId: string, turnId: string, w: seq<EventBody>, notify: Action -> bool)
    requires TurnWord(w) && w != [] && Last(w).IsTerminal()
    requires forall a: Action :: notify(a)
    ensures var events := Stamp(sessionId, turnId, w);
      && Consumed(events, turnId, notify, 0) == |w| - 1
      && Report(events, turnId, |w| - 1) == Finished
      && Bodies(events[..|w| - 1]) == Front(w)
  {
    var events := Stamp(sessionId, turnId, w);
    forall i | 0 <= i < |w| - 1
      ensures !events[i].body.IsTerminal()
    {
      TurnIsFramed(w, i);
    }
    ConsumedReaches(events, turnId, notify, 0, |w| - 1);
  }

  /** The consumer never gets past the first event out of sequence, and shows exactly what came before it. */
  lemma TamperingIsCaught(sessionId: string, turnId: string, w: seq<EventBody>, events: seq<SemanticEvent>,
                          k: nat, notify: Action -> bool)
    requires TurnWord(w) && k < |w| <= U64_MAX && k < |events| && (k > 0 ==> !w[k - 1].IsTerminal())
    requires events[..k] == Stamp(sessionId, turnId, w)[..k]
    requires events[k].turnId == turnId && events[k].sequence != k
    requires forall a: Action :: notify(a)
    ensures Consumed(events, turnId, notify, 0) == k
    ensures Report(events, turnId, k) == SequenceGap(k, events[k].sequence)
    ensures Bodies(events[..k]) == w[..k]
  {
    var whole := Stamp(sessionId, turnId, w);
    forall i | 0 <= i < k
      ensures events[i] == whole[i] && !events[i].body.IsTerminal()
    {
      assert events[i] == events[..k][i] == whole[..k][i];
      TurnIsFramed(w, i);
    }
    ConsumedReaches(events, turnId, notify, 0, k);
  }

  function Deleted<T>(s: seq<T>, i: nat): seq<T>
    requires i < |s|
  {
    s[..i] + s[i + 1..]
  }

  function Duplicated<T>(s: seq<T>, i: nat): seq<T>
    requires i < |s|
  {
    s[..i + 1] + s[i..]
  }

  function Swapped<T>(s: seq<T>, i: nat, j: nat): seq<T>
    requires i < j < |s|
  {
    s[i := s[j]][j := s[i]]
  }

  /** Losing an event before the last one is noticed at its place. */
  lemma DeletionIsRefused(sessionId: string, turnId: string, w: seq<EventBody>, i: nat, notify: Action -> bool)
    requires TurnWord(w) && i + 1 < |w| <= U64_MAX
    requires forall a: Action :: notify(a)
    ensures var events := Deleted(Stamp(sessionId, turnId, w), i);
      && Consumed(events, turnId, notify, 0) == i
      && Report(events, turnId, i) == SequenceGap(i, i + 1)
      && Bodies(events[..i]) == w[..i]
  {
    var events := Deleted(Stamp(sessionId, turnId, w), i);
    assert events[..i] == Stamp(sessionId, turnId, w)[..i];
    if i > 0 { TurnIsFramed(w, i - 1); }
    TamperingIsCaught(sessionId, turnId, w, events, i, notify);
  }

  /** Delivering an event twice is noticed at the second copy, unless the first copy ended the turn. */
  lemma DuplicationIsRefused(sessionId: string, turnId: string, w: seq<EventBody>, i: nat, notify: Action -> bool)
    requires TurnWord(w) && i + 1 < |w| <= U64_MAX
    requires forall a: Action :: notify(a)
    ensures var events := Duplicated(Stamp(sessionId, turnId, w), i);
      && Consumed(events, turnId, notify, 0) == i + 1
      && Report(events, turnId, i + 1) == SequenceGap(i + 1, i)
      && Bodies(events[..i + 1]) == w[..i + 1]
  {
    var events := Duplicated(Stamp(sessionId, turnId, w), i);
    assert events[..i + 1] == Stamp(sessionId, turnId, w)[..i + 1];
    TurnIsFramed(w, i);
    TamperingIsCaught(sessionId, turnId, w, events, i + 1, notify);
  }

  /** Exchanging two events is noticed at the earlier place. */
  lemma SwapIsRefused(sessionId: string, turnId: string, w: seq<EventBody>, i: nat, j: nat, notify: Action -> bool)
    requires TurnWord(w) && i < j < |w| <= U64_MAX
    requires forall a: Action :: notify(a)
    ensures var events := Swapped(Stamp(sessionId, turnId, w), i, j);
      && Consumed(events, turnId, notify, 0) == i
      && Report(events, turnId, i) == SequenceGap(i, j)
      && Bodies(events[..i]) == w[..i]
  {
    var events := Swapped(Stamp(sessionId, turnId, w), i, j);
    assert events[..i] == Stamp(sessionId, turnId, w)[..i];
    if i > 0 { TurnIsFramed(w, i - 1); }
    TamperingIsCaught(sessionId, turnId, w, events, i, notify);
  }
}
