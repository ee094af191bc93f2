/** The calls of one round: what the host is asked about each of them, what is published, what is appended. */
module Calls {
  import opened Prelude
  import opened Events
  import opened Text
  import Integrity
  import E = Emitter
  import H = History
  import opened ModelProjection
  import opened ToolIds
  import opened TurnSteps
  import opened Hosts
  import opened Conduct
  import opened Ledger

  // ---------- how a turn stops ----------

  function TerminalOf(e: LoopError): Integrity.TerminalEvent {
    if e.Cancelled? then Integrity.Cancelled else Integrity.Failed
  }

  /** The event that ends a turn on this error. */
  function EndingOf(e: LoopError): EventBody {
    if e.Cancelled? then Events.TurnCancelled else Events.TurnFailed
  }

  /** The turn stopped on an error: only an abandoned call is a rejected event. */
  ghost predicate Stopped(r: E.Run, e: LoopError) {
    && !e.InvalidToolCall? && r.state.integrity.phase.Terminal?
    && r.word != [] && r.word[|r.word| - 1] == EndingOf(e)
    && (EndsAbandoned(r.word) <==> e.SemanticEventRejected?)
  }

  /** The turn has stopped on an error, or goes on because the client left and no terminal event can reach it. */
  ghost predicate Over(live: bool, r: E.Run, e: LoopError) {
    !e.InvalidToolCall? && if live then Stopped(r, e) else r.state.integrity.phase.Active?
  }

  /** The turn broke off: it is over, or rests after an invalid tool call. */
  ghost predicate Broke(live: bool, r: E.Run, e: LoopError) {
    if e.InvalidToolCall? then Resting(r) else Over(live, r, e)
  }

  /** The turn broke off, and the conversation says why. */
  ghost predicate Fell(e: LoopError, live: bool, r: E.Run, said: seq<Exchange>, log: Log, tries: seq<Exchange>,
                       enabled: bool, config: Config) {
    Broke(live, r, e) && Halting(enabled, Story(said, r.word, log), e, tries, config)
  }

  /** Nothing, or the end of the turn. */
  predicate IsCap(cap: seq<EventBody>) {
    cap == [] || (|cap| == 1 && cap[0].IsTerminal())
  }

  /** Nothing was published but perhaps the end of the turn. */
  predicate Capped(after: seq<EventBody>, before: seq<EventBody>) {
    before <= after && IsCap(after[|before|..])
  }

  lemma CapIsAside(cap: seq<EventBody>)
    requires IsCap(cap)
    ensures Aside(cap, EventOwner) && Deltaless(cap)
  {
  }

  lemma CappedBy(word: seq<EventBody>, cap: seq<EventBody>)
    requires IsCap(cap)
    ensures Capped(word + cap, word)
  {
    assert (word + cap)[|word|..] == cap;
  }

  method Push(history: H.History, entry: H.HistoryEntry, ghost log: Log) returns (ghost log': Log)
    requires Recent(history.legacy, log)
    modifies history
    ensures log' == log + [entry] && Recent(history.legacy, log')
  {
    RecentSnoc(history.legacy, log, entry);
    history.PushCanonical(entry);
    log' := log + [entry];
  }

  method Stop(sink: E.TurnEventEmitter, e: LoopError)
    requires sink.Valid() && sink.View().state.integrity.phase.Active? && !e.InvalidToolCall?
    requires Live(sink) ==> (EndsInRequest(sink.View().word) <==> e.SemanticEventRejected?)
    modifies sink, sink.bus
    ensures OneWay(sink)
    ensures Over(Live(sink), sink.View(), e) && Capped(sink.View().word, old(sink.View().word))
  {
    ghost var word := sink.View().word;
    var ok := EndTurn(sink, TerminalOf(e));
    if ok { assert sink.View().word[..|word|] == word; }
    CappedBy(word, if ok then [EndingOf(e)] else []);
    assert word + [] == word;
  }

  /** A refused event: the client has left, and the failure of the turn cannot reach it either. */
  method RejectEvent(sink: E.TurnEventEmitter) returns (e: LoopError)
    requires sink.Valid() && !Live(sink) && sink.View().state.integrity.phase.Active?
    modifies sink, sink.bus
    ensures sink.Valid() && !Live(sink) && e == LoopError.SemanticEventRejected && Over(false, sink.View(), e)
    ensures Capped(sink.View().word, old(sink.View().word))
  {
    e := LoopError.SemanticEventRejected;
    Stop(sink, e);
  }

  /** `ensure_not_cancelled`. */
  method EnsureNotCancelled(sink: E.TurnEventEmitter, host: Host) returns (cancelled: bool)
    requires sink.Valid() && sink.View().state.integrity.phase.Active? && !EndsInRequest(sink.View().word)
    modifies sink, sink.bus, host
    ensures OneWay(sink) && host.said == old(host.said) + [CancelAsked(cancelled)]
    ensures if cancelled then
              Over(Live(sink), sink.View(), LoopError.Cancelled) && Capped(sink.View().word, old(sink.View().word))
            else sink.View() == old(sink.View())
  {
    cancelled := host.IsCancelled();
    if cancelled { Stop(sink, LoopError.Cancelled); }
  }

  // ---------- one tool call ----------

  datatype Turnout = Answered(content: string, isOk: bool) | Halted(error: LoopError)

  function PhaseAfter(p: Permit): Integrity.ToolPhase {
    if p == Granted(false) then Integrity.Requested else Integrity.Permission
  }

  function Waiting(call: PendingToolCall, ui: Option<ToolUi>, permit: Permit): Course {
    Course(call, ui, permit, None, false)
  }

  method ObtainPermit(sink: E.TurnEventEmitter, call: PendingToolCall, host: Host, ghost ui: Option<ToolUi>,
                      ghost r0: E.Run) returns (permit: Permit)
    requires sink.Valid() && InCall(sink.View(), r0, call.id, Integrity.Requested, Waiting(call, ui, Unasked).Steps())
    modifies sink, sink.bus, host
    ensures OneWay(sink) && host.said == old(host.said) + Asking(call, permit)
    ensures if permit.Unasked? then Lost(sink)
            else InCall(sink.View(), r0, call.id, PhaseAfter(permit), Waiting(call, ui, permit).Steps())
  {
    var needed := host.NeedsPermission(call);
    if !needed { return Granted(false); }
    ghost var steps := Waiting(call, ui, Unasked).Steps();
    var ok := AskForCall(sink, call.id, r0, steps);
    if !ok { return Unasked; }
    var decision := host.RequestPermission(call);
    match decision {
      case Allow => permit := Granted(true);
      case Reject(message) => permit := Denied(message);
      case PermissionCancelled => permit := Withdrawn;
    }
    assert Waiting(call, ui, permit).Steps() == steps + [PermissionRequested(call.id)];
  }

  /** Asks the tool, or answers for it when tools are disabled. */
  method ToolResult(call: PendingToolCall, enabled: bool, ui: Option<ToolUi>, host: Host)
    returns (answer: ToolAnswer, ghost use: Use)
    modifies host
    ensures host.said == old(host.said) + Using(call, use)
    ensures answer == Reply(call, ui, use) && (use.Disabled? <==> !enabled)
  {
    use := Disabled;
    if enabled {
      var any := host.HasTools(call);
      if any {
        answer := host.CallTool(call);
        use := Tool(answer);
        return;
      }
      use := NoTools;
    }
    answer := ToolAnswer(DisabledMessage(call.name), false, FailedUi(ui));
  }

  function Talked(c: Course): seq<Exchange> {
    if c.use.Some? then Using(c.call, c.use.value) else []
  }

  /** The answer to a call whose permission is settled: the refusal, or what the tool says. `None` if nobody listens. */
  method FindAnswer(sink: E.TurnEventEmitter, call: PendingToolCall, enabled: bool, ui: Option<ToolUi>,
                    permit: Permit, host: Host, ghost r0: E.Run)
    returns (answer: Option<ToolAnswer>, ghost phase: Integrity.ToolPhase, ghost c: Course)
    requires sink.Valid()
    requires InCall(sink.View(), r0, call.id, PhaseAfter(permit), Waiting(call, ui, permit).Steps())
    requires permit.Granted? || permit.Denied?
    modifies sink, sink.bus, host
    ensures OneWay(sink) && host.said == old(host.said) + Talked(c)
    ensures c == Course(call, ui, permit, c.use, false) && c.Valid(enabled)
    ensures if answer.None? then Lost(sink) && c.use.None?
            else InCall(sink.View(), r0, call.id, phase, c.Steps()) && (phase.Permission? || phase.Executing?)
                 && answer.value == c.Answer() && (c.use.Some? || permit.Denied?)
  {
    phase, c := PhaseAfter(permit), Waiting(call, ui, permit);
    match permit {
      case Denied(message) =>
        answer := Some(ToolAnswer(message, false, FailedUi(ui)));
      case Granted(_) =>
        ghost var steps := c.Steps();
        var started := StartCall(sink, call.id, RunningUi(ui), r0, phase, steps);
        if !started { return None, phase, c; }
        var found;
        ghost var use;
        found, use := ToolResult(call, enabled, ui, host);
        phase, c := Integrity.Executing, c.(use := Some(use));
        assert c.Steps() == steps + [ToolExecutionStarted(call.id, RunningUi(ui))];
        answer := Some(found);
    }
  }

  lemma AnswerIsLast(c: Course)
    requires !c.done
    ensures c.(done := true).Steps() == c.Steps() + [ToolResultReceived(c.call.id, c.Answer().content, c.Answer().ui)]
  {
  }

  /** A course that came to its answer is a request, permission or execution or both, and one result. */
  lemma CourseRuns(c: Course, enabled: bool)
    requires c.done && c.Valid(enabled)
    ensures CallSteps(c.Steps(), c.call.id, c.call.name, c.Answer().content)
  {
    var steps := c.Steps();
    assert steps[|steps| - 1] == ToolResultReceived(c.call.id, c.Answer().content, c.Answer().ui);
  }

  lemma WaitingEndsNoRequest(word: seq<EventBody>, c: Course)
    requires !c.done && (c.use.Some? || c.permit.Denied? || c.permit.Withdrawn?)
    ensures !EndsInRequest(word + c.Steps())
  {
    var steps := c.Steps();
    assert !steps[|steps| - 1].ToolCallRequested?;
  }

  /** How far a call came: nowhere, to a request that nobody heard, or along its course, with a last check. */
  datatype Passage = Silent | Unheard(ui: Option<ToolUi>) | Passed(course: Course, check: Option<bool>) {
    function Bodies(): seq<EventBody> {
      if Passed? then course.Steps() else []
    }

    function Exchanges(call: PendingToolCall): seq<Exchange> {
      match this
      case Silent => [CancelAsked(true)]
      case Unheard(ui) => [CancelAsked(false)] + [UiAsked(call, ui)]
      case Passed(c, check) => [CancelAsked(false)] + (c.Conversation() + Checked(check))
    }

    /** Why the call went no further. */
    function Reason(): LoopError {
      if Silent? || (Passed? && if check.Some? then check.value else course.permit.Withdrawn?) then LoopError.Cancelled
      else LoopError.SemanticEventRejected
    }

    predicate Valid(enabled: bool, call: PendingToolCall) {
      Passed? ==>
        && course.call == call && course.Valid(enabled) && (course.done ==> check == Some(false))
        && (check.Some? ==> !course.permit.Withdrawn?)
    }
  }

  function Checked(check: Option<bool>): seq<Exchange> {
    if check.Some? then [CancelAsked(check.value)] else []
  }

  /** How a call went: to its result, or to the end of the turn. */
  ghost predicate CallWent(live: bool, r: E.Run, r0: E.Run, call: PendingToolCall, p: Passage, t: Turnout) {
    match t
    case Answered(content, isOk) =>
      && p.Passed? && p.course.done && content == p.course.Answer().content && isOk == p.course.Answer().isOk
      && CallOver(r, r0, call.id, p.course.Steps())
    case Halted(e) =>
      && (p.Passed? ==> !p.course.done) && e == p.Reason() && Over(live, r, e) && (live ==> e.Cancelled?)
      && Capped(r.word, r0.word + p.Bodies())
  }

  /** Publishes the result of a call, unless the turn was cancelled meanwhile. */
  method DeliverAnswer(sink: E.TurnEventEmitter, call: PendingToolCall, answer: ToolAnswer, enabled: bool, host: Host,
                       ghost r0: E.Run, ghost phase: Integrity.ToolPhase, ghost c: Course)
    returns (t: Turnout, ghost p: Passage)
    requires sink.Valid() && InCall(sink.View(), r0, call.id, phase, c.Steps())
    requires phase.Permission? || phase.Executing?
    requires Resting(r0) && call.id !in r0.state.integrity.tools
    requires c.call == call && !c.done && c.Valid(enabled) && (c.use.Some? || c.permit.Denied?) && answer == c.Answer()
    modifies sink, sink.bus, host
    ensures OneWay(sink) && p.Passed? && p.course == c.(done := t.Answered?)
    ensures host.said == old(host.said) + Checked(p.check)
    ensures p.Valid(enabled, call) && CallWent(Live(sink), sink.View(), r0, call, p, t)
  {
    WaitingEndsNoRequest(r0.word, c);
    var cancelled := EnsureNotCancelled(sink, host);
    p := Passed(c, Some(cancelled));
    if cancelled { return Halted(LoopError.Cancelled), p; }
    AnswerIsLast(c);
    var ok := FinishCall(sink, call.id, answer.content, answer.ui, r0, phase, c.Steps());
    if ok {
      t, p := Answered(answer.content, answer.isOk), Passed(c.(done := true), Some(false));
    } else {
      var e := RejectEvent(sink);
      t := Halted(e);
    }
  }

  /** A call whose permission is settled goes on to its result. */
  method AnswerCall(sink: E.TurnEventEmitter, call: PendingToolCall, enabled: bool, ui: Option<ToolUi>, permit: Permit,
                    host: Host, ghost r0: E.Run) returns (t: Turnout, ghost p: Passage)
    requires sink.Valid() && Resting(r0) && call.id !in r0.state.integrity.tools
    requires InCall(sink.View(), r0, call.id, PhaseAfter(permit), Waiting(call, ui, permit).Steps())
    requires permit.Granted? || permit.Denied?
    modifies sink, sink.bus, host
    ensures OneWay(sink) && p.Passed? && p.course == Course(call, ui, permit, p.course.use, p.course.done)
    ensures host.said == old(host.said) + Talked(p.course) + Checked(p.check)
    ensures p.Valid(enabled, call) && CallWent(Live(sink), sink.View(), r0, call, p, t)
  {
    var answer;
    ghost var phase, c;
    answer, phase, c := FindAnswer(sink, call, enabled, ui, permit, host, r0);
    if answer.Some? {
      t, p := DeliverAnswer(sink, call, answer.value, enabled, host, r0, phase, c);
    } else {
      p := Passed(c, None);
      NothingMore(host.said);
      var e := RejectEvent(sink);
      t := Halted(e);
    }
  }

  lemma ConversationSoFar(said0: seq<Exchange>, c: Course, after: seq<Exchange>)
    ensures said0 + [CancelAsked(false)] + [UiAsked(c.call, c.ui)] + Asking(c.call, c.permit) + Talked(c) + after
         == said0 + ([CancelAsked(false)] + (c.Conversation() + after))
  {
  }

  /** A call whose permission was withdrawn, or could not be asked for, stops the turn. */
  method HaltCall(sink: E.TurnEventEmitter, call: PendingToolCall, enabled: bool, ghost ui: Option<ToolUi>,
                  permit: Permit, ghost r0: E.Run) returns (t: Turnout, ghost p: Passage)
    requires sink.Valid() && (permit.Withdrawn? || permit.Unasked?) && (permit.Unasked? ==> !Live(sink))
    requires var steps := Waiting(call, ui, permit).Steps();
      || InCall(sink.View(), r0, call.id, PhaseAfter(permit), steps)
      || (permit.Unasked? && InCall(sink.View(), r0, call.id, Integrity.Requested, steps))
    modifies sink, sink.bus
    ensures OneWay(sink) && p == Passed(Waiting(call, ui, permit), None)
    ensures p.Valid(enabled, call) && CallWent(Live(sink), sink.View(), r0, call, p, t)
  {
    p := Passed(Waiting(call, ui, permit), None);
    if permit.Withdrawn? {
      WaitingEndsNoRequest(r0.word, p.course);
      Stop(sink, LoopError.Cancelled);
      t := Halted(LoopError.Cancelled);
    } else {
      var e := RejectEvent(sink);
      t := Halted(e);
    }
  }

  /** A requested call goes on to its result. */
  method SettleCall(sink: E.TurnEventEmitter, call: PendingToolCall, enabled: bool, ui: Option<ToolUi>, host: Host,
                    ghost r0: E.Run, ghost said0: seq<Exchange>) returns (t: Turnout, ghost p: Passage)
    requires sink.Valid() && Resting(r0) && call.id !in r0.state.integrity.tools
    requires InCall(sink.View(), r0, call.id, Integrity.Requested, Waiting(call, ui, Unasked).Steps())
    requires host.said == said0 + [CancelAsked(false)] + [UiAsked(call, ui)]
    modifies sink, sink.bus, host
    ensures OneWay(sink) && host.said == said0 + p.Exchanges(call)
    ensures p.Valid(enabled, call) && CallWent(Live(sink), sink.View(), r0, call, p, t)
  {
    var permit := ObtainPermit(sink, call, host, ui, r0);
    if permit.Granted? || permit.Denied? {
      t, p := AnswerCall(sink, call, enabled, ui, permit, host, r0);
    } else {
      NothingMore(host.said);
      t, p := HaltCall(sink, call, enabled, ui, permit, r0);
    }
    ConversationSoFar(said0, p.course, Checked(p.check));
  }

  /** One executable call, from its request to its result. */
  method ExecuteCall(sink: E.TurnEventEmitter, call: PendingToolCall, enabled: bool, host: Host)
    returns (t: Turnout, ghost p: Passage)
    requires sink.Valid() && Resting(sink.View())
    requires call.id != "" && call.id !in sink.View().state.integrity.tools
    modifies sink, sink.bus, host
    ensures OneWay(sink) && host.said == old(host.said) + p.Exchanges(call)
    ensures p.Valid(enabled, call) && CallWent(Live(sink), sink.View(), old(sink.View()), call, p, t)
  {
    ghost var r0, said0 := sink.View(), host.said;
    NothingMore(r0.word);
    var cancelled := EnsureNotCancelled(sink, host);
    if cancelled { return Halted(LoopError.Cancelled), Silent; }
    var ui := host.UiModel(call);
    var ok := RequestCall(sink, call.id, call.name, ui);
    if ok {
      assert [ToolCallRequested(call.id, call.name, ui)] == Waiting(call, ui, Unasked).Steps();
      t, p := SettleCall(sink, call, enabled, ui, host, r0, said0);
    } else {
      p := Unheard(ui);
      Associative(said0, [CancelAsked(false)], [UiAsked(call, ui)]);
      var e := RejectEvent(sink);
      t := Halted(e);
    }
  }

  // ---------- every call is dealt with lawfully ----------

  /** How a call stops the turn: by its last answer, or because nobody listens. */
  predicate HaltsBy(e: LoopError, x: seq<Exchange>) {
    && x != [] && CalmSoFar(x) && !Fails(x[|x| - 1])
    && e == if Cancels(x[|x| - 1]) then LoopError.Cancelled else LoopError.SemanticEventRejected
  }

  /** What was said, published and appended about a call: nothing that concerns others, and all of it lawful. */
  ghost predicate Dealt(enabled: bool, call: PendingToolCall, x: seq<Exchange>, w: seq<EventBody>, l: Log) {
    && OnlyAbout(x, ExchangeOwner, call.id) && OnlyAbout(w, EventOwner, call.id) && OnlyAbout(l, EntryOwner, call.id)
    && LawfulCall(enabled, About(x, ExchangeOwner, call.id), About(w, EventOwner, call.id),
                  About(l, EntryOwner, call.id))
    && Plain(x) && Deltaless(w) && forall e | e in x && e.PermissionNeeded? :: e.call == call
  }

  lemma CourseIsPlain(c: Course)
    ensures Plain(c.Conversation()) && Deltaless(c.Steps())
    ensures forall e | e in c.Conversation() && e.PermissionNeeded? :: e.call == c.call
  {
  }

  lemma DealtBy(enabled: bool, call: PendingToolCall, x: seq<Exchange>, w: seq<EventBody>, l: Log,
                own: seq<Exchange>, shown: seq<EventBody>)
    requires OnlyAbout(x, ExchangeOwner, call.id) && About(x, ExchangeOwner, call.id) == own
    requires OnlyAbout(w, EventOwner, call.id) && About(w, EventOwner, call.id) == shown
    requires forall i | 0 <= i < |l| :: EntryOwner(l[i]) == Some(call.id)
    requires LawfulCall(enabled, own, shown, l)
    requires Plain(x) && Deltaless(w) && forall e | e in x && e.PermissionNeeded? :: e.call == call
    ensures Dealt(enabled, call, x, w, l)
  {
    AboutAll(l, EntryOwner, call.id);
  }

  /** A course, between exchanges that concern no call. */
  lemma CourseIsDealt(enabled: bool, c: Course, before: seq<Exchange>, after: seq<Exchange>, cap: seq<EventBody>,
                      x: seq<Exchange>, w: seq<EventBody>)
    requires c.Valid(enabled) && IsCap(cap)
    requires before == [CancelAsked(false)] && (after == [] || exists cancelled :: after == [CancelAsked(cancelled)])
    requires x == before + c.Conversation() + after && w == c.Steps() + cap
    ensures Dealt(enabled, c.call, x, w, c.Results())
  {
    CourseOwns(c);
    c.IsLawful(enabled);
    CapIsAside(cap);
    AboutBetween(before, c.Conversation(), after, ExchangeOwner, c.call.id);
    AboutThen(c.Steps(), cap, EventOwner, c.call.id);
    PlainBetween(c, before, after, cap);
    DealtBy(enabled, c.call, x, w, c.Results(), c.Conversation(), c.Steps());
  }

  lemma PlainBetween(c: Course, before: seq<Exchange>, after: seq<Exchange>, cap: seq<EventBody>)
    requires before == [CancelAsked(false)] && (after == [] || exists cancelled :: after == [CancelAsked(cancelled)])
    requires Deltaless(cap)
    ensures var x := before + c.Conversation() + after;
      Plain(x) && forall e | e in x && e.PermissionNeeded? :: e.call == c.call
    ensures Deltaless(c.Steps() + cap)
  {
    CourseIsPlain(c);
  }

  lemma RequestIsShown(call: PendingToolCall, ui: Option<ToolUi>, shown: seq<EventBody>, cap: seq<EventBody>)
    requires shown == [] || shown == [ToolCallRequested(call.id, call.name, FailedUi(ui))]
    requires IsCap(cap)
    ensures var w := shown + cap;
      OnlyAbout(w, EventOwner, call.id) && About(w, EventOwner, call.id) == shown && Deltaless(w)
  {
    CapIsAside(cap);
    AboutThen(shown, cap, EventOwner, call.id);
  }

  lemma RequestIsAsked(call: PendingToolCall, ui: Option<ToolUi>, before: seq<Exchange>)
    requires Aside(before, ExchangeOwner) && Plain(before)
    ensures var x := before + [UiAsked(call, ui)];
      && OnlyAbout(x, ExchangeOwner, call.id) && About(x, ExchangeOwner, call.id) == [UiAsked(call, ui)]
      && Plain(x) && forall e | e in x && e.PermissionNeeded? :: e.call == call
  {
    var own := [UiAsked(call, ui)];
    AboutAppend(before, own, ExchangeOwner, call.id);
    AsideUntouched(before, ExchangeOwner, call.id);
    AboutAll(own, ExchangeOwner, call.id);
    NothingMore(own);
    AsideAsksNothing(before);
  }

  /** A call that was not requested, or was given up as soon as it was. */
  lemma RequestIsDealt(enabled: bool, call: PendingToolCall, ui: Option<ToolUi>, before: seq<Exchange>,
                       shown: seq<EventBody>, cap: seq<EventBody>, w: seq<EventBody>)
    requires Aside(before, ExchangeOwner) && Plain(before)
    requires shown == [] || shown == [ToolCallRequested(call.id, call.name, FailedUi(ui))]
    requires IsCap(cap) && w == shown + cap
    ensures Dealt(enabled, call, before + [UiAsked(call, ui)], w, [])
  {
    RequestIsAsked(call, ui, before);
    RequestIsShown(call, ui, shown, cap);
    RequestIsLawful(enabled, call, ui, shown);
    DealtBy(enabled, call, before + [UiAsked(call, ui)], w, [], [UiAsked(call, ui)], shown);
  }

  lemma SilenceIsDealt(enabled: bool, call: PendingToolCall, cancelled: bool, cap: seq<EventBody>)
    requires IsCap(cap)
    ensures Dealt(enabled, call, [CancelAsked(cancelled)], cap, [])
  {
    NothingIsLawful(enabled);
    CapIsAside(cap);
    AsideUntouched([CancelAsked(cancelled)], ExchangeOwner, call.id);
    AsideUntouched(cap, EventOwner, call.id);
  }

  lemma CourseEnds(enabled: bool, call: PendingToolCall, p: Passage, cap: seq<EventBody>, x: seq<Exchange>,
                   w: seq<EventBody>)
    requires p.Passed? && p.Valid(enabled, call) && IsCap(cap) && x == p.Exchanges(call) && w == p.course.Steps() + cap
    ensures Dealt(enabled, call, x, w, p.course.Results())
  {
    Associative([CancelAsked(false)], p.course.Conversation(), Checked(p.check));
    CourseIsDealt(enabled, p.course, [CancelAsked(false)], Checked(p.check), cap, x, w);
  }

  /** However a call goes, it is dealt with lawfully. */
  lemma PassageIsDealt(enabled: bool, call: PendingToolCall, p: Passage, cap: seq<EventBody>, x: seq<Exchange>,
                       w: seq<EventBody>)
    requires p.Valid(enabled, call) && IsCap(cap) && x == p.Exchanges(call) && w == p.Bodies() + cap
    ensures Dealt(enabled, call, x, w, if p.Passed? then p.course.Results() else [])
  {
    hide Dealt;
    NothingMore(cap);
    match p {
      case Silent => SilenceIsDealt(enabled, call, true, cap);
      case Unheard(ui) => RequestIsDealt(enabled, call, ui, [CancelAsked(false)], [], cap, w);
      case Passed(_, _) => CourseEnds(enabled, call, p, cap, x, w);
    }
  }

  lemma ConversationIsCalm(c: Course)
    requires c.use.Some? ==> c.permit.Granted?
    ensures var x := c.Conversation();
      && x != [] && CalmSoFar(x) && (Calm(x) <==> !c.permit.Withdrawn?)
      && !Fails(x[|x| - 1]) && (Cancels(x[|x| - 1]) <==> c.permit.Withdrawn?)
  {
    var x := c.Conversation();
    if c.permit.Withdrawn? {
      assert x == [UiAsked(c.call, c.ui), PermissionNeeded(c.call, true), PermissionAsked(c.call, PermissionCancelled)];
      assert Cancels(x[2]);
    } else {
      assert Calm(Asking(c.call, c.permit)) && Calm(Talked(c));
      CalmAppend([UiAsked(c.call, c.ui)], Asking(c.call, c.permit));
      CalmAppend([UiAsked(c.call, c.ui)] + Asking(c.call, c.permit), Talked(c));
      assert !Stopping(x);
    }
  }

  lemma FlaggedConversation(talk: seq<Exchange>, check: Option<bool>)
    requires talk != [] && CalmSoFar(talk) && !Fails(talk[|talk| - 1]) && (check.Some? ==> Calm(talk))
    ensures var x := [CancelAsked(false)] + (talk + Checked(check));
      && CalmSoFar(x) && (Calm(x) <==> Calm(talk) && check != Some(true))
      && !Fails(x[|x| - 1])
      && (Cancels(x[|x| - 1]) <==> if check.Some? then check.value else Cancels(talk[|talk| - 1]))
  {
    var after := Checked(check);
    NothingMore(talk);
    assert Calm(after) <==> check != Some(true) by {
      if check == Some(true) { assert Cancels(after[0]); }
    }
    if Calm(talk) { CalmSoFarAppend(talk, after); }
    CalmAppend(talk, after);
    CalmAppend([CancelAsked(false)], talk + after);
    CalmSoFarAppend([CancelAsked(false)], talk + after);
  }

  lemma PassageIsCalm(enabled: bool, call: PendingToolCall, p: Passage)
    requires p.Valid(enabled, call)
    ensures p.Passed? && p.course.done ==> Calm(p.Exchanges(call))
    ensures !(p.Passed? && p.course.done) ==> HaltsBy(p.Reason(), p.Exchanges(call))
  {
    if p.Passed? {
      ConversationIsCalm(p.course);
      FlaggedConversation(p.course.Conversation(), p.check);
    } else {
      assert |p.Exchanges(call)| <= 2;
    }
  }

  // ---------- the calls of one round ----------

  /** The identity and name of every call. */
  function Pairs(calls: seq<PendingToolCall>): Trail {
    seq(|calls|, i requires 0 <= i < |calls| => (calls[i].id, calls[i].name))
  }

  /** The calls have run, in order: each shows once in the word as a call and as a result. */
  ghost predicate Ran(r: E.Run, r0: E.Run, calls: seq<PendingToolCall>, got: Trail) {
    && Resting(r)
    && r.state.integrity.tools.Keys == r0.state.integrity.tools.Keys + Members(Ids(calls))
    && Requests(r.word) == Requests(r0.word) + Pairs(calls)
    && Results(r.word) == Results(r0.word) + got
  }

  /** The log has the results. */
  ghost predicate Appended(log: Log, log0: Log, got: Trail) {
    CallsIn(log) == CallsIn(log0) && ResultsIn(log) == ResultsIn(log0) + got
  }

  ghost predicate Executed(r: E.Run, r0: E.Run, log: Log, log0: Log, calls: seq<PendingToolCall>, got: Trail) {
    Ran(r, r0, calls, got) && Appended(log, log0, got) && Firsts(got) == Ids(calls)
  }

  lemma RanStep(r: E.Run, r1: E.Run, r0: E.Run, calls: seq<PendingToolCall>, got: Trail,
                call: PendingToolCall, content: string, steps: seq<EventBody>)
    requires Ran(r1, r0, calls, got)
    requires CallSteps(steps, call.id, call.name, content) && CallOver(r, r1, call.id, steps)
    ensures Ran(r, r0, calls + [call], got + [(call.id, content)])
  {
    CallStepsTrail(r1.word, steps, call.id, call.name, content);
    ListsSnoc(calls, got, call, content);
    Grown(Requests(r.word), Requests(r1.word), Requests(r0.word), Pairs(calls), (call.id, call.name));
    Grown(Results(r.word), Results(r1.word), Results(r0.word), got, (call.id, content));
  }

  lemma AppendedStep(log: Log, log0: Log, got: Trail, id: ToolCallId, name: string, content: string, isOk: bool)
    requires Appended(log, log0, got)
    ensures Appended(log + [H.ToolResult(id, name, content, isOk)], log0, got + [(id, content)])
  {
    LogSnoc(log, H.ToolResult(id, name, content, isOk));
    Grown(ResultsIn(log) + [(id, content)], ResultsIn(log), ResultsIn(log0), got, (id, content));
  }

  lemma ExecutedStep(r: E.Run, r1: E.Run, r0: E.Run, log: Log, log0: Log, calls: seq<PendingToolCall>, got: Trail,
                     call: PendingToolCall, content: string, isOk: bool, steps: seq<EventBody>)
    requires Executed(r1, r0, log, log0, calls, got)
    requires CallSteps(steps, call.id, call.name, content) && CallOver(r, r1, call.id, steps)
    ensures Executed(r, r0, log + [H.ToolResult(call.id, call.name, content, isOk)], log0,
                     calls + [call], got + [(call.id, content)])
  {
    RanStep(r, r1, r0, calls, got, call, content, steps);
    AppendedStep(log, log0, got, call.id, call.name, content, isOk);
    ListsSnoc(calls, got, call, content);
  }

  lemma Grown(longer: Trail, trail: Trail, before: Trail, since: Trail, last: (string, string))
    requires longer == trail + [last] && trail == before + since
    ensures longer == before + (since + [last])
  {
  }

  lemma ListsSnoc(calls: seq<PendingToolCall>, got: Trail, call: PendingToolCall, content: string)
    ensures Pairs(calls + [call]) == Pairs(calls) + [(call.id, call.name)]
    ensures Ids(calls + [call]) == Ids(calls) + [call.id]
    ensures Members(Ids(calls + [call])) == Members(Ids(calls)) + {call.id}
    ensures Firsts(got + [(call.id, content)]) == Firsts(got) + [call.id]
  {
    assert Ids(calls + [call]) == Ids(calls) + [call.id];
    MembersAppend(Ids(calls), [call.id]);
  }

  lemma NothingExecuted(r: E.Run, log: Log)
    requires Resting(r)
    ensures Executed(r, r, log, log, [], [])
  {
  }

  lemma NextIsFresh(calls: seq<PendingToolCall>, k: nat, taken: set<string>)
    requires k < |calls| && FreshIds(Ids(calls), taken)
    ensures calls[k].id != "" && calls[k].id !in taken + Members(Ids(calls[..k]))
  {
    assert Ids(calls)[k] == calls[k].id;
    forall i | 0 <= i < k
      ensures Ids(calls[..k])[i] == Ids(calls)[i]
    {
    }
  }

  /** The entry that records a call. */
  function CallEntry(call: PendingToolCall): H.HistoryEntry {
    H.ToolCall(call.id, call.name, call.arguments)
  }

  /** A call that was answered keeps the turn in good order. */
  lemma NextIsGood(enabled: bool, t: Story, taken: set<string>, due: Due, call: PendingToolCall, p: Passage)
    requires Good(enabled, t, taken, due) && call.id !in taken && CallEntry(call) in t.log
    requires p.Valid(enabled, call) && p.Passed? && p.course.done
    ensures Good(enabled, Later(t, p.Exchanges(call), p.course.Steps(), p.course.Results()), taken + {call.id}, due)
  {
    var x, w, l := p.Exchanges(call), p.course.Steps(), p.course.Results();
    NothingMore(w);
    PassageIsDealt(enabled, call, p, [], x, w);
    PassageIsCalm(enabled, call, p);
    PlainPays(due, x, w, l);
    GoodSnoc(enabled, t, taken, due, due, call.id, x, w, l);
  }

  /** What was dealt with lawfully stops the turn lawfully. */
  lemma DealtHalts(enabled: bool, t: Story, taken: set<string>, due: Due, call: PendingToolCall, x: seq<Exchange>,
                   w: seq<EventBody>, e: LoopError, config: Config)
    requires Good(enabled, t, taken, due) && call.id !in taken && Dealt(enabled, call, x, w, [])
    requires Explains(e, t.said + x, due.tries, config) && (Weighed(x) ==> CallEntry(call) in t.log)
    ensures Halting(enabled, Later(t, x, w, []), e, due.tries, config)
  {
    hide Good, Halting, LawfulCall, Explains, Plain, Deltaless;
    CallHalts(enabled, t, taken, due, call.id, x, w, e, config);
  }

  /** A call that stops the turn says why. */
  lemma NextHalts(enabled: bool, t: Story, taken: set<string>, due: Due, call: PendingToolCall, p: Passage,
                  cap: seq<EventBody>, config: Config)
    requires Good(enabled, t, taken, due) && call.id !in taken && CallEntry(call) in t.log
    requires p.Valid(enabled, call) && !(p.Passed? && p.course.done) && IsCap(cap)
    ensures Halting(enabled, Later(t, p.Exchanges(call), p.Bodies() + cap, []), p.Reason(), due.tries, config)
  {
    hide Halting, Lawful, Owes, Dealt, Explains, HaltsBy;
    var x, w := p.Exchanges(call), p.Bodies() + cap;
    PassageIsDealt(enabled, call, p, cap, x, w);
    PassageIsCalm(enabled, call, p);
    HaltIsExplained(t, due, x, p.Reason(), config);
    DealtHalts(enabled, t, taken, due, call, x, w, p.Reason(), config);
  }

  lemma HaltIsExplained(t: Story, due: Due, x: seq<Exchange>, e: LoopError, config: Config)
    requires Calm(t.said) && Owes(t, due) && HaltsBy(e, x)
    ensures Explains(e, t.said + x, due.tries, config)
  {
    CalmSoFarAppend(t.said, x);
    OpeningsAreOpenings(t.said);
  }

  /** How a turn stands after some calls of a round have run, or after one of them stopped it. */
  ghost predicate Stands(error: Option<LoopError>, live: bool, r: E.Run, r0: E.Run, said: seq<Exchange>, log: Log,
                         log0: Log, calls: seq<PendingToolCall>, got: Trail, terms: Terms) {
    match error
    case None =>
      && Executed(r, r0, log, log0, calls, got)
      && Good(terms.enabled, Story(said, r.word, log), terms.taken + Members(Ids(calls)), terms.due)
    case Some(e) =>
      Over(live, r, e) && Halting(terms.enabled, Story(said, r.word, log), e, terms.due.tries, terms.config)
  }

  /** What holds throughout the calls of a round: the settings, the names taken before it, and what is due. */
  datatype Terms = Terms(enabled: bool, taken: set<string>, due: Due, config: Config)

  lemma NextStands(r: E.Run, r1: E.Run, r0: E.Run, said: seq<Exchange>, log1: Log, log0: Log,
                   done: seq<PendingToolCall>, got1: Trail, call: PendingToolCall, p: Passage, terms: Terms)
    requires Stands(None, true, r1, r0, said, log1, log0, done, got1, terms)
    requires call.id !in terms.taken + Members(Ids(done)) && CallEntry(call) in log1
    requires p.Valid(terms.enabled, call) && p.Passed? && p.course.done && CallOver(r, r1, call.id, p.course.Steps())
    ensures var answer := p.course.Answer();
      Stands(None, true, r, r0, said + p.Exchanges(call),
             log1 + [H.ToolResult(call.id, call.name, answer.content, answer.isOk)], log0, done + [call],
             got1 + [(call.id, answer.content)], terms)
  {
    hide Good, Executed;
    var answer := p.course.Answer();
    CourseRuns(p.course, terms.enabled);
    ExecutedStep(r, r1, r0, log1, log0, done, got1, call, answer.content, answer.isOk, p.course.Steps());
    NextIsGood(terms.enabled, Story(said, r1.word, log1), terms.taken + Members(Ids(done)), terms.due, call, p);
    ListsSnoc(done, got1, call, answer.content);
    assert terms.taken + Members(Ids(done)) + {call.id} == terms.taken + Members(Ids(done + [call]));
  }

  lemma NextFalls(live: bool, r: E.Run, r1: E.Run, r0: E.Run, said: seq<Exchange>, log1: Log, log0: Log,
                  done: seq<PendingToolCall>, got1: Trail, call: PendingToolCall, p: Passage, e: LoopError,
                  terms: Terms)
    requires Stands(None, true, r1, r0, said, log1, log0, done, got1, terms)
    requires call.id !in terms.taken + Members(Ids(done)) && CallEntry(call) in log1
    requires p.Valid(terms.enabled, call) && CallWent(live, r, r1, call, p, Halted(e))
    ensures Stands(Some(e), live, r, r0, said + p.Exchanges(call), log1, log0, done + [call], got1, terms)
  {
    hide Good, Halting, Executed;
    var cap := r.word[|r1.word + p.Bodies()|..];
    Associative(r1.word, p.Bodies(), cap);
    assert r.word == r1.word + (p.Bodies() + cap);
    NothingMore(log1);
    NextHalts(terms.enabled, Story(said, r1.word, log1), terms.taken + Members(Ids(done)), terms.due, call, p, cap,
              terms.config);
  }

  lemma StandsAtRest(r: E.Run, r0: E.Run, said: seq<Exchange>, log: Log, log0: Log, calls: seq<PendingToolCall>,
                     got: Trail, terms: Terms)
    requires Stands(None, true, r, r0, said, log, log0, calls, got, terms)
    ensures Resting(r) && r.state.integrity.tools.Keys == r0.state.integrity.tools.Keys + Members(Ids(calls))
  {
    hide Good;
  }

  lemma StandsNoMore(e: LoopError, live: bool, r: E.Run, r0: E.Run, said: seq<Exchange>, log: Log, log0: Log,
                     calls: seq<PendingToolCall>, got: Trail, terms: Terms)
    requires Stands(Some(e), live, r, r0, said, log, log0, calls, got, terms)
    ensures Over(live, r, e) && Halting(terms.enabled, Story(said, r.word, log), e, terms.due.tries, terms.config)
  {
    hide Halting;
  }

  /** Runs the next call of a round and appends its result. */
  method ExecuteNext(sink: E.TurnEventEmitter, call: PendingToolCall, enabled: bool, host: Host, history: H.History,
                     ghost done: seq<PendingToolCall>, ghost r0: E.Run, ghost log1: Log, ghost log0: Log,
                     ghost got1: Trail, ghost terms: Terms)
    returns (error: Option<LoopError>, ghost log: Log, ghost got: Trail)
    requires sink.Valid() && Stands(None, true, sink.View(), r0, host.said, log1, log0, done, got1, terms)
    requires call.id != "" && call.id !in r0.state.integrity.tools.Keys + Members(Ids(done))
    requires Recent(history.legacy, log1) && enabled == terms.enabled
    requires call.id !in terms.taken + Members(Ids(done)) && CallEntry(call) in log1
    modifies sink, sink.bus, history, host
    ensures OneWay(sink) && log1 <= log && Recent(history.legacy, log)
    ensures Stands(error, error.None? || Live(sink), sink.View(), r0, host.said, log, log0, done + [call], got, terms)
  {
    hide Stands;
    log, got, error := log1, got1, None;
    ghost var r1, said := sink.View(), host.said;
    StandsAtRest(r1, r0, said, log1, log0, done, got1, terms);
    var turnout;
    ghost var p;
    turnout, p := ExecuteCall(sink, call, enabled, host);
    match turnout {
      case Halted(e) =>
        error := Some(e);
        NextFalls(Live(sink), sink.View(), r1, r0, said, log1, log0, done, got1, call, p, e, terms);
      case Answered(content, isOk) =>
        log := Push(history, H.ToolResult(call.id, call.name, content, isOk), log);
        got := got + [(call.id, content)];
        NextStands(sink.View(), r1, r0, said, log1, log0, done, got1, call, p, terms);
    }
  }

  lemma NothingStands(r: E.Run, said: seq<Exchange>, log: Log, terms: Terms)
    requires Resting(r) && Good(terms.enabled, Story(said, r.word, log), terms.taken, terms.due)
    ensures Stands(None, true, r, r, said, log, log, [], [], terms)
  {
    hide Good, Executed;
    NothingExecuted(r, log);
    assert terms.taken + Members(Ids([])) == terms.taken;
  }

  /** Runs the calls of a round in order. */
  method ExecuteCalls(sink: E.TurnEventEmitter, calls: seq<PendingToolCall>, enabled: bool, host: Host,
                      history: H.History, ghost log0: Log, ghost terms: Terms)
    returns (error: Option<LoopError>, ghost log: Log, ghost got: Trail)
    requires sink.Valid() && Resting(sink.View()) && enabled == terms.enabled
    requires FreshIds(Ids(calls), sink.View().state.integrity.tools.Keys) && FreshIds(Ids(calls), terms.taken)
    requires Recent(history.legacy, log0)
    requires Good(enabled, Story(host.said, sink.View().word, log0), terms.taken, terms.due)
    requires forall c | c in calls :: CallEntry(c) in log0
    modifies sink, sink.bus, history, host
    ensures OneWay(sink) && log0 <= log && Recent(history.legacy, log)
    ensures error.None? ==> Stands(None, true, sink.View(), old(sink.View()), host.said, log, log0, calls, got, terms)
    ensures error.Some? ==>
      && Over(Live(sink), sink.View(), error.value)
      && Halting(enabled, Story(host.said, sink.View().word, log), error.value, terms.due.tries, terms.config)
  {
    hide Stands, Good, Halting;
    log, got := log0, [];
    ghost var r0 := sink.View();
    NothingStands(r0, host.said, log0, terms);
    var k: nat := 0;
    assert calls[..0] == [];
    while k < |calls|
      invariant 0 <= k <= |calls| && OneWay(sink)
      invariant log0 <= log && Recent(history.legacy, log)
      invariant Stands(None, true, sink.View(), r0, host.said, log, log0, calls[..k], got, terms)
    {
      NextIsFresh(calls, k, r0.state.integrity.tools.Keys);
      NextIsFresh(calls, k, terms.taken);
      error, log, got := ExecuteNext(sink, calls[k], enabled, host, history, calls[..k], r0, log, log0, got, terms);
      assert calls[..k + 1] == calls[..k] + [calls[k]];
      if error.Some? {
        StandsNoMore(error.value, Live(sink), sink.View(), r0, host.said, log, log0, calls[..k + 1], got, terms);
        return;
      }
      k := k + 1;
    }
    assert calls[..|calls|] == calls;
    error := None;
  }

  // ---------- what a round appends ----------

  /** The entries of a round: its text, unless it is blank, and its calls. */
  function TextEntries(text: string): Log {
    if Trim(text) != "" then [H.Assistant(text)] else []
  }

  function CallEntries(calls: seq<PendingToolCall>): Log {
    seq(|calls|, i requires 0 <= i < |calls| => CallEntry(calls[i]))
  }

  /** Appends the text of the round, if it is not blank. */
  method PushText(history: H.History, text: string, ghost log0: Log) returns (ghost log: Log)
    requires Recent(history.legacy, log0)
    modifies history
    ensures log == log0 + TextEntries(text) && Recent(history.legacy, log)
  {
    log := log0;
    if Trim(text) != "" {
      log := Push(history, H.Assistant(text), log);
    } else {
      NothingMore(log);
    }
  }

  /** Appends every call of the round before any of them runs. */
  method PushCalls(history: H.History, calls: seq<PendingToolCall>, ghost log0: Log) returns (ghost log: Log)
    requires Recent(history.legacy, log0)
    modifies history
    ensures log == log0 + CallEntries(calls) && Recent(history.legacy, log)
  {
    log := log0;
    for k := 0 to |calls|
      invariant log == log0 + CallEntries(calls)[..k] && Recent(history.legacy, log)
    {
      log := Push(history, CallEntry(calls[k]), log);
      assert CallEntries(calls)[..k + 1] == CallEntries(calls)[..k] + [CallEntry(calls[k])];
    }
    assert CallEntries(calls)[..|calls|] == CallEntries(calls);
  }

  /** Only these calls were appended. */
  ghost predicate Listed(log: Log, log0: Log, pairs: Trail) {
    CallsIn(log) == CallsIn(log0) + pairs && ResultsIn(log) == ResultsIn(log0)
  }

  lemma TextLists(log0: Log, text: string)
    ensures Listed(log0 + TextEntries(text), log0, [])
  {
    if Trim(text) != "" { LogSnoc(log0, H.Assistant(text)); } else { NothingMore(log0); }
  }

  lemma {:induction false} CallsList(log0: Log, log1: Log, calls: seq<PendingToolCall>)
    requires Listed(log1, log0, [])
    ensures Listed(log1 + CallEntries(calls), log0, Pairs(calls))
  {
    hide CallsIn, ResultsIn;
    if calls == [] {
      NothingMore(log1);
    } else {
      var n := |calls| - 1;
      CallsList(log0, log1, calls[..n]);
      assert log1 + CallEntries(calls) == (log1 + CallEntries(calls[..n])) + [CallEntry(calls[n])];
      assert Pairs(calls) == Pairs(calls[..n]) + [(calls[n].id, calls[n].name)];
      ListedNext(log1 + CallEntries(calls[..n]), log0, Pairs(calls[..n]), calls[n]);
    }
  }

  lemma ListedNext(log: Log, log0: Log, pairs: Trail, call: PendingToolCall)
    requires Listed(log, log0, pairs)
    ensures Listed(log + [CallEntry(call)], log0, pairs + [(call.id, call.name)])
  {
    hide CallsIn, ResultsIn;
    LogSnoc(log, CallEntry(call));
    Associative(CallsIn(log0), pairs, [(call.id, call.name)]);
  }

  /** Appends the text and the calls of a round. */
  method PushRound(history: H.History, text: string, calls: seq<PendingToolCall>, ghost log0: Log)
    returns (ghost log: Log)
    requires Recent(history.legacy, log0)
    modifies history
    ensures log == log0 + TextEntries(text) + CallEntries(calls) && Recent(history.legacy, log)
    ensures Listed(log, log0, Pairs(calls))
  {
    log := PushText(history, text, log0);
    TextLists(log0, text);
    CallsList(log0, log, calls);
    log := PushCalls(history, calls, log);
  }

  lemma {:induction false} EntriesPick(calls: seq<PendingToolCall>)
    ensures Pick(CallEntries(calls), CallIn) == Pleas(calls)
  {
    if calls != [] {
      var n := |calls| - 1;
      EntriesPick(calls[..n]);
      assert CallEntries(calls)[..n] == CallEntries(calls[..n]);
    }
  }

  /** The text of a round is paid for when it is appended. */
  lemma TextIsPaid(enabled: bool, t: Story, taken: set<string>, due: Due, text: string)
    requires Good(enabled, t, taken, due) && due.texts == (if Trim(text) != "" then [text] else [])
    ensures Good(enabled, Later(t, [], [], TextEntries(text)), taken, due.(texts := []))
  {
    hide Good, Pays, Trim;
    if Trim(text) != "" {
      EntryPays(due, due.(texts := []), H.Assistant(text));
      GoodEntry(enabled, t, taken, due, due.(texts := []), H.Assistant(text));
    } else {
      StillTheSame(t);
    }
  }

  lemma EntriesPay(due: Due, calls: seq<PendingToolCall>)
    requires due.pleas == multiset(Pleas(calls))
    ensures Pays(due, due.(pleas := multiset{}), [], [], CallEntries(calls))
  {
    var l := CallEntries(calls);
    EntriesPick(calls);
    PickNothing(l, AssistantIn);
    PickNothing(l, UserIn);
    NothingMore(due.tries);
    NothingMore(due.texts);
    NothingMore(due.users);
  }

  /** The calls of a round are paid for when they are appended. */
  lemma CallsArePaid(enabled: bool, t: Story, taken: set<string>, due: Due, calls: seq<PendingToolCall>)
    requires Good(enabled, t, taken, due) && due.pleas == multiset(Pleas(calls))
    ensures Good(enabled, Later(t, [], [], CallEntries(calls)), taken, due.(pleas := multiset{}))
  {
    EntriesPay(due, calls);
    LawfulAside(enabled, t, taken, [], [], CallEntries(calls));
    GoodLater(enabled, t, taken, due, taken, due.(pleas := multiset{}), [], [], CallEntries(calls));
  }
}
