/**
 * The turn grammar, defined on words of events alone, and the proof that it is exactly
 * the language the emitter publishes.
 */
module TurnGrammar {
  import opened Prelude
  import opened Events
  import Integrity
  import E = Emitter

  datatype ToolMark = Req | Perm | Exec | Res

  function MarkOf(e: EventBody, id: ToolCallId): seq<ToolMark> {
    match e
    case ToolCallRequested(i, _, _) => if i == id then [Req] else []
    case PermissionRequested(i) => if i == id then [Perm] else []
    case ToolExecutionStarted(i, _) => if i == id then [Exec] else []
    case ToolResultReceived(i, _, _) => if i == id then [Res] else []
    case _ => []
  }

  function Front(w: seq<EventBody>): seq<EventBody>
    requires w != []
  {
    w[..|w| - 1]
  }

  function Last(w: seq<EventBody>): EventBody
    requires w != []
  {
    w[|w| - 1]
  }

  /** The steps one tool call goes through in a word, in order. */
  function Lifecycle(w: seq<EventBody>, id: ToolCallId): seq<ToolMark> {
    if w == [] then [] else Lifecycle(Front(w), id) + MarkOf(Last(w), id)
  }

  /** The only lifecycles: requested, then permission and execution each optional, a result only after one of them. */
  predicate LegalLifecycle(m: seq<ToolMark>) {
    || m == [] || m == [Req]
    || m == [Req, Perm] || m == [Req, Exec] || m == [Req, Perm, Exec]
    || m == [Req, Perm, Res] || m == [Req, Exec, Res] || m == [Req, Perm, Exec, Res]
  }

  predicate Settled(m: seq<ToolMark>) {
    m == [] || m[|m| - 1] == Res
  }

  /** The last thinking bracket of the word is an opening one. */
  predicate ThinkingOpen(w: seq<EventBody>) {
    w != [] && (Last(w).ThinkingStarted? || (!Last(w).ThinkingCompleted? && ThinkingOpen(Front(w))))
  }

  /** The last of assistant start, assistant completion and tool request is a start. */
  predicate AssistantOpen(w: seq<EventBody>) {
    w != [] && (Last(w).AssistantStarted?
                || (!Last(w).AssistantCompleted? && !Last(w).ToolCallRequested? && AssistantOpen(Front(w))))
  }

  predicate WorkSeen(w: seq<EventBody>) {
    exists i :: 0 <= i < |w| && (w[i].AssistantStarted? || w[i].ToolCallRequested?)
  }

  /** Whether event `e` may follow the word `w`. */
  ghost predicate MayFollow(w: seq<EventBody>, e: EventBody) {
    && (e.TurnStarted? <==> w == [])
    && (w != [] ==> !Last(w).IsTerminal())
    && match e {
      case AssistantStarted => !ThinkingOpen(w)
      case AssistantDelta(_) => AssistantOpen(w) && !ThinkingOpen(w)
      case AssistantCompleted => AssistantOpen(w) && !ThinkingOpen(w)
      case ThinkingStarted => AssistantOpen(w) && !ThinkingOpen(w)
      case ThinkingDelta(_) => ThinkingOpen(w)
      case ThinkingCompleted => ThinkingOpen(w)
      case ToolCallRequested(id, _, _) => id != "" && !ThinkingOpen(w)
      case TurnCompleted => WorkSeen(w) && !ThinkingOpen(w) && (forall id :: Settled(Lifecycle(w, id)))
      case _ => true
    }
    && (forall id :: LegalLifecycle(Lifecycle(w, id) + MarkOf(e, id)))
  }

  /** A word of the turn grammar. */
  ghost predicate TurnWord(w: seq<EventBody>) {
    w == [] || (TurnWord(Front(w)) && MayFollow(Front(w), Last(w)))
  }

  /** A script: emitter calls and what the transport answers to each. */
  type Script = seq<(E.Call, E.Transport)>

  /** The emitter after a script, from a fresh one. */
  function Play(script: Script): E.Run {
    if script == [] then E.FreshRun
    else
      var last := script[|script| - 1];
      E.Emit(Play(script[..|script| - 1]), last.0, last.1)
  }

  /** What the integrity layer's tool phases say about a lifecycle. */
  predicate PhaseMatches(tools: map<ToolCallId, Integrity.ToolPhase>, id: ToolCallId, m: seq<ToolMark>) {
    if id !in tools then m == []
    else match tools[id]
      case Requested => m == [Req]
      case Permission => m == [Req, Perm]
      case Executing => m == [Req, Exec] || m == [Req, Perm, Exec]
      case Closed(reason) =>
        if reason.ByPermissionDenied? then m == [Req, Perm, Res]
        else m == [Req, Exec, Res] || m == [Req, Perm, Exec, Res]
  }

  /** The integrity state agrees with what has been published. */
  ghost predicate Tracks(i: Integrity.State, w: seq<EventBody>) {
    && (i.phase.NotStarted? <==> w == [])
    && (i.phase.Terminal? <==> w != [] && Last(w).IsTerminal())
    && (!i.phase.Terminal? ==>
      && i.thinking == ThinkingOpen(w)
      && (i.assistant ==> AssistantOpen(w))
      && i.workStarted == WorkSeen(w)
      && (forall id :: PhaseMatches(i.tools, id, Lifecycle(w, id))))
  }

  ghost predicate Reflects(r: E.Run) {
    E.Sound(r) && Tracks(r.state.integrity, r.word)
  }

  lemma LifecycleSnoc(w: seq<EventBody>, e: EventBody, id: ToolCallId)
    ensures Lifecycle(w + [e], id) == Lifecycle(w, id) + MarkOf(e, id)
  {
  }

  lemma WorkSeenSnoc(w: seq<EventBody>, e: EventBody)
    ensures WorkSeen(w + [e]) <==> WorkSeen(w) || e.AssistantStarted? || e.ToolCallRequested?
  {
    var v := w + [e];
    if WorkSeen(w) {
      var i :| 0 <= i < |w| && (w[i].AssistantStarted? || w[i].ToolCallRequested?);
      assert v[i] == w[i];
    }
    if e.AssistantStarted? || e.ToolCallRequested? {
      assert v[|w|] == e;
    }
  }

  /** The tool phases follow the lifecycles along one accepted call. */
  lemma PhaseFollows(i: Integrity.State, call: E.Call, id: ToolCallId, m: seq<ToolMark>)
    requires Integrity.Allows(i, E.TransitionOf(call)) && E.BodyOf(call).Some? && !call.Finish?
    requires PhaseMatches(i.tools, id, m)
    ensures LegalLifecycle(m + MarkOf(E.BodyOf(call).value, id))
    ensures PhaseMatches(Integrity.After(i, E.TransitionOf(call)).tools, id, m + MarkOf(E.BodyOf(call).value, id))
  {
    if MarkOf(E.BodyOf(call).value, id) == [] {
      assert m + [] == m;
    }
  }

  /** What the integrity layer lets through is always allowed by the grammar. */
  lemma AcceptedMayFollow(i: Integrity.State, w: seq<EventBody>, call: E.Call)
    requires Tracks(i, w) && E.BodyOf(call).Some?
    requires Integrity.Allows(if call.Finish? then E.ScopesClosed(i, call.event) else i, E.TransitionOf(call))
    ensures MayFollow(w, E.BodyOf(call).value)
  {
    var e := E.BodyOf(call).value;
    forall id
      ensures LegalLifecycle(Lifecycle(w, id) + MarkOf(e, id))
      ensures e.TurnCompleted? ==> Settled(Lifecycle(w, id))
    {
      assert PhaseMatches(i.tools, id, Lifecycle(w, id));
      if call.Finish? {
        assert Lifecycle(w, id) + [] == Lifecycle(w, id);
        assert e.TurnCompleted? && id in i.tools ==> id !in Integrity.OpenTools(i);
      } else {
        PhaseFollows(i, call, id, Lifecycle(w, id));
      }
    }
  }

  /** The integrity state keeps in step with the word along an accepted call. */
  lemma AcceptedTracks(i: Integrity.State, w: seq<EventBody>, call: E.Call)
    requires Tracks(i, w) && E.BodyOf(call).Some? && !call.Finish?
    requires Integrity.Allows(i, E.TransitionOf(call))
    ensures Tracks(Integrity.After(i, E.TransitionOf(call)), w + [E.BodyOf(call).value])
  {
    var e := E.BodyOf(call).value;
    var i', w' := Integrity.After(i, E.TransitionOf(call)), w + [e];
    assert Front(w') == w && Last(w') == e;
    WorkSeenSnoc(w, e);
    forall id
      ensures PhaseMatches(i'.tools, id, Lifecycle(w', id))
    {
      PhaseFollows(i, call, id, Lifecycle(w, id));
      LifecycleSnoc(w, e, id);
    }
  }

  lemma SnocTurnWord(w: seq<EventBody>, e: EventBody)
    requires TurnWord(w) && MayFollow(w, e)
    ensures TurnWord(w + [e])
  {
  }

  lemma EmitTracks(i: Integrity.State, w: seq<EventBody>, call: E.Call)
    requires Tracks(i, w)
    requires Integrity.Allows(if call.Finish? then E.ScopesClosed(i, call.event) else i, E.TransitionOf(call))
    ensures Tracks(Integrity.After(if call.Finish? then E.ScopesClosed(i, call.event) else i, E.TransitionOf(call)),
                   if E.BodyOf(call).Some? then w + [E.BodyOf(call).value] else w)
  {
    if call.Finish? {
      assert Last(w + [E.BodyOf(call).value]) == E.BodyOf(call).value;
    } else if E.BodyOf(call).Some? {
      AcceptedTracks(i, w, call);
    }
  }

  /** One call keeps the published word in the grammar and the state in step with it. */
  lemma EmitStaysInGrammar(r: E.Run, call: E.Call, transport: E.Transport)
    requires Reflects(r) && TurnWord(r.word)
    ensures Reflects(E.Emit(r, call, transport)) && TurnWord(E.Emit(r, call, transport).word)
  {
    E.EmitKeepsSound(r, call, transport);
    if E.Accepts(r.state, call, transport) {
      EmitTracks(r.state.integrity, r.word, call);
      if E.BodyOf(call).Some? {
        AcceptedMayFollow(r.state.integrity, r.word, call);
        SnocTurnWord(r.word, E.BodyOf(call).value);
      }
    }
  }

  /** Soundness: whatever is called and whatever the transport does, the published word is a turn word. */
  lemma {:induction false} EmitterPublishesTurnWords(script: Script)
    ensures TurnWord(Play(script).word) && Reflects(Play(script))
  {
    if script != [] {
      var last := script[|script| - 1];
      EmitterPublishesTurnWords(script[..|script| - 1]);
      EmitStaysInGrammar(Play(script[..|script| - 1]), last.0, last.1);
    }
  }

  /** The call that publishes an event. */
  function CallFor(e: EventBody): E.Call {
    match e
    case TurnStarted => E.StartTurn
    case AssistantStarted => E.StartAssistant
    case AssistantDelta(text) => E.SayAssistant(text)
    case AssistantCompleted => E.CompleteAssistant
    case ThinkingStarted => E.StartThinking
    case ThinkingDelta(text) => E.SayThinking(text)
    case ThinkingCompleted => E.CompleteThinking
    case ToolCallRequested(id, name, ui) => E.RequestTool(id, name, ui)
    case PermissionRequested(id) => E.AskPermission(id)
    case ToolExecutionStarted(id, ui) => E.StartExecution(id, ui)
    case ToolResultReceived(id, result, ui) => E.ReceiveResult(id, result, ui)
    case TurnCancelled => E.Finish(Integrity.Cancelled)
    case TurnFailed => E.Finish(Integrity.Failed)
    case TurnCompleted => E.Finish(Integrity.Completed)
  }

  /** The assistant scope of the state is exactly the one visible in the word: no silent yield is pending. */
  ghost predicate Faithful(r: E.Run) {
    && Reflects(r)
    && (!r.state.integrity.phase.Terminal? ==> r.state.integrity.assistant == AssistantOpen(r.word))
  }

  /** The assistant scope must be given up before these events. */
  predicate NeedsYield(e: EventBody) {
    e.AssistantStarted? || e.ToolCallRequested? || e.TurnCompleted?
  }

  /** The tool steps the grammar allows are the ones the tool phases allow. */
  lemma AllowedToolStep(i: Integrity.State, e: EventBody, id: ToolCallId, m: seq<ToolMark>)
    requires PhaseMatches(i.tools, id, m) && MarkOf(e, id) != [] && LegalLifecycle(m + MarkOf(e, id))
    ensures match e {
      case ToolCallRequested(_, _, _) => id !in i.tools
      case PermissionRequested(_) => id in i.tools && i.tools[id].Requested?
      case ToolExecutionStarted(_, _) => id in i.tools && (i.tools[id].Requested? || i.tools[id].Permission?)
      case ToolResultReceived(_, _, _) => id in i.tools && (i.tools[id].Executing? || i.tools[id].Permission?)
      case _ => true
    }
  {
    LegalNext(m, MarkOf(e, id)[0]);
  }

  lemma NothingOpen(tools: map<ToolCallId, Integrity.ToolPhase>, w: seq<EventBody>)
    requires forall id :: PhaseMatches(tools, id, Lifecycle(w, id)) && Settled(Lifecycle(w, id))
    ensures forall id | id in tools :: tools[id].Closed?
  {
    forall id | id in tools
      ensures tools[id].Closed?
    {
      assert PhaseMatches(tools, id, Lifecycle(w, id)) && Settled(Lifecycle(w, id));
    }
  }

  predicate IsToolEvent(e: EventBody) {
    e.ToolCallRequested? || e.PermissionRequested? || e.ToolExecutionStarted? || e.ToolResultReceived?
  }

  lemma AllowedToolEvent(i: Integrity.State, e: EventBody, m: seq<ToolMark>)
    requires IsToolEvent(e) && i.phase.Active? && PhaseMatches(i.tools, e.id, m)
    requires LegalLifecycle(m + MarkOf(e, e.id))
    requires e.ToolCallRequested? ==> e.id != "" && !i.assistant && !i.thinking
    ensures Integrity.Allows(i, E.TransitionOf(CallFor(e)))
  {
    AllowedToolStep(i, e, e.id, m);
  }

  lemma AllowedTransition(i: Integrity.State, w: seq<EventBody>, e: EventBody)
    requires MayFollow(w, e) && !e.TurnCancelled? && !e.TurnFailed?
    requires Tracks(i, w) && i.phase == if w == [] then Integrity.NotStarted else Integrity.Active
    requires if NeedsYield(e) then !i.assistant else i.assistant == AssistantOpen(w)
    ensures Integrity.Allows(i, E.TransitionOf(CallFor(e)))
  {
    if e.TurnCompleted? {
      NothingOpen(i.tools, w);
    } else if IsToolEvent(e) {
      var m := Lifecycle(w, e.id);
      assert LegalLifecycle(m + MarkOf(e, e.id));
      AllowedToolEvent(i, e, m);
    }
  }

  lemma AllowedIsLegal(r: E.Run, e: EventBody)
    requires Reflects(r) && MayFollow(r.word, e)
    requires if NeedsYield(e) then !r.state.integrity.assistant else Faithful(r)
    ensures E.Legal(r.state, CallFor(e))
  {
    if e.TurnCancelled? || e.TurnFailed? {
      assert Integrity.OpenTools(E.Prepared(r.state, CallFor(e))) == {};
    } else {
      AllowedTransition(r.state.integrity, r.word, e);
    }
  }

  /** A lifecycle and the mark that may extend it. */
  lemma LegalNext(m: seq<ToolMark>, k: ToolMark)
    requires LegalLifecycle(m + [k])
    ensures m == if k.Req? then [] else if k.Perm? then [Req] else m
    ensures k.Exec? ==> m == [Req] || m == [Req, Perm]
    ensures k.Res? ==> m == [Req, Perm] || m == [Req, Exec] || m == [Req, Perm, Exec]
  {
    assert m == (m + [k])[..|m|];
    assert (m + [k])[|m|] == k;
  }

  /** Completeness: every turn word is published by some script over a connected transport. */
  lemma {:induction false} TurnWordsArePublished(w: seq<EventBody>) returns (script: Script)
    requires TurnWord(w)
    ensures Play(script).word == w && Faithful(Play(script))
    ensures forall i | 0 <= i < |script| :: script[i].1 == E.CONNECTED
  {
    if w == [] {
      script := [];
    } else {
      script := TurnWordsArePublished(Front(w));
      script := PublishNext(script, Last(w));
      assert w == Front(w) + [Last(w)];
    }
  }

  lemma PublishNext(script: Script, e: EventBody) returns (longer: Script)
    requires Faithful(Play(script)) && TurnWord(Play(script).word) && MayFollow(Play(script).word, e)
    requires forall i | 0 <= i < |script| :: script[i].1 == E.CONNECTED
    ensures Play(longer).word == Play(script).word + [e] && Faithful(Play(longer))
    ensures forall i | 0 <= i < |longer| :: longer[i].1 == E.CONNECTED
  {
    longer := script;
    if NeedsYield(e) && Play(script).state.integrity.assistant {
      longer := AppendYield(script);
    }
    longer := AppendEvent(longer, e);
  }

  lemma AssistantFollows(i: Integrity.State, w: seq<EventBody>, e: EventBody)
    requires Integrity.Allows(i, E.TransitionOf(CallFor(e))) && !e.IsTerminal()
    requires if NeedsYield(e) then !i.assistant else i.assistant == AssistantOpen(w)
    ensures Integrity.After(i, E.TransitionOf(CallFor(e))).assistant == AssistantOpen(w + [e])
  {
    assert Front(w + [e]) == w && Last(w + [e]) == e;
  }

  lemma PublishingKeepsFaith(r: E.Run, e: EventBody)
    requires E.Legal(r.state, CallFor(e))
    requires if NeedsYield(e) then !r.state.integrity.assistant
             else !r.state.integrity.phase.Terminal? ==> r.state.integrity.assistant == AssistantOpen(r.word)
    ensures var next := E.Emit(r, CallFor(e), E.CONNECTED);
      && next.word == r.word + [e]
      && (!next.state.integrity.phase.Terminal? ==> next.state.integrity.assistant == AssistantOpen(next.word))
  {
    if !e.IsTerminal() {
      AssistantFollows(r.state.integrity, r.word, e);
    }
  }

  lemma AppendYield(script: Script) returns (longer: Script)
    requires Faithful(Play(script)) && TurnWord(Play(script).word) && !ThinkingOpen(Play(script).word)
    requires Play(script).state.integrity.assistant && Play(script).state.integrity.phase.Active?
    requires forall i | 0 <= i < |script| :: script[i].1 == E.CONNECTED
    ensures Play(longer).word == Play(script).word && Reflects(Play(longer))
    ensures !Play(longer).state.integrity.assistant
    ensures forall i | 0 <= i < |longer| :: longer[i].1 == E.CONNECTED
  {
    longer := AppendCall(script, E.YieldToAction);
  }

  /** The next event of the grammar, published by its own call. */
  lemma AppendEvent(script: Script, e: EventBody) returns (longer: Script)
    requires Reflects(Play(script)) && TurnWord(Play(script).word) && MayFollow(Play(script).word, e)
    requires if NeedsYield(e) then !Play(script).state.integrity.assistant else Faithful(Play(script))
    requires forall i | 0 <= i < |script| :: script[i].1 == E.CONNECTED
    ensures Play(longer).word == Play(script).word + [e] && Faithful(Play(longer))
    ensures forall i | 0 <= i < |longer| :: longer[i].1 == E.CONNECTED
  {
    AllowedIsLegal(Play(script), e);
    PublishingKeepsFaith(Play(script), e);
    longer := AppendCall(script, CallFor(e));
  }

  lemma AppendCall(script: Script, call: E.Call) returns (longer: Script)
    requires Reflects(Play(script)) && TurnWord(Play(script).word)
    requires forall i | 0 <= i < |script| :: script[i].1 == E.CONNECTED
    ensures Play(longer) == E.Emit(Play(script), call, E.CONNECTED) && Reflects(Play(longer))
    ensures TurnWord(Play(longer).word)
    ensures forall i | 0 <= i < |longer| :: longer[i].1 == E.CONNECTED
  {
    longer := script + [(call, E.CONNECTED)];
    assert longer[..|longer| - 1] == script;
    EmitStaysInGrammar(Play(script), call, E.CONNECTED);
  }

  /** The emitter's language is the turn grammar, no more and no less. */
  lemma EmitterLanguageIsTurnGrammar(w: seq<EventBody>)
    ensures TurnWord(w) <==> exists script: Script :: Play(script).word == w
  {
    if TurnWord(w) {
      var script := TurnWordsArePublished(w);
    }
    forall script: Script | Play(script).word == w
      ensures TurnWord(w)
    {
      EmitterPublishesTurnWords(script);
    }
  }

  lemma {:induction false} PrefixIsTurnWord(w: seq<EventBody>, k: nat)
    requires TurnWord(w) && k <= |w|
    ensures TurnWord(w[..k])
    ensures k < |w| ==> MayFollow(w[..k], w[k])
  {
    if k < |w| {
      assert Front(w)[..k] == w[..k];
      if k < |w| - 1 {
        PrefixIsTurnWord(Front(w), k);
      } else {
        assert Front(w) == w[..k];
      }
    } else {
      assert w[..k] == w;
    }
  }

  lemma {:induction false} MarkedEarlier(w: seq<EventBody>, id: ToolCallId, k: ToolMark)
    ensures k in Lifecycle(w, id) <==> exists i :: 0 <= i < |w| && MarkOf(w[i], id) == [k]
  {
    if w != [] {
      MarkedEarlier(Front(w), id, k);
      if k in Lifecycle(Front(w), id) {
        var i :| 0 <= i < |w| - 1 && MarkOf(Front(w)[i], id) == [k];
        assert MarkOf(w[i], id) == [k];
      }
      if MarkOf(Last(w), id) == [k] {
        assert MarkOf(w[|w| - 1], id) == [k];
      }
      forall i | 0 <= i < |w| && MarkOf(w[i], id) == [k]
        ensures k in Lifecycle(w, id)
      {
        if i < |w| - 1 { assert Front(w)[i] == w[i]; }
      }
    }
  }

  /** What a lifecycle must contain before a result may end it. */
  lemma ResultNeeds(m: seq<ToolMark>)
    requires LegalLifecycle(m + [Res])
    ensures Req in m && Res !in m && (Perm in m || Exec in m)
  {
    LegalNext(m, Res);
  }

  /** A mark missing from the lifecycle of a prefix occurs nowhere in the prefix. */
  lemma Unmarked(w: seq<EventBody>, j: nat, id: ToolCallId, k: ToolMark)
    requires j <= |w| && k !in Lifecycle(w[..j], id)
    ensures forall i | 0 <= i < j :: MarkOf(w[i], id) != [k]
  {
    MarkedEarlier(w[..j], id, k);
    forall i | 0 <= i < j
      ensures MarkOf(w[i], id) != [k]
    {
      assert w[..j][i] == w[i];
    }
  }

  lemma MarkPersists(w: seq<EventBody>, i: nat, j: nat, id: ToolCallId, k: ToolMark)
    requires i < j <= |w| && MarkOf(w[i], id) == [k]
    ensures k in Lifecycle(w[..j], id)
  {
    assert w[..j][i] == w[i];
    MarkedEarlier(w[..j], id, k);
  }

  lemma MarkedAt(w: seq<EventBody>, j: nat, id: ToolCallId, k: ToolMark) returns (i: nat)
    requires j <= |w| && k in Lifecycle(w[..j], id)
    ensures i < j && MarkOf(w[i], id) == [k]
  {
    MarkedEarlier(w[..j], id, k);
    i :| 0 <= i < |w[..j]| && MarkOf(w[..j][i], id) == [k];
  }

  lemma LegalAt(w: seq<EventBody>, j: nat, id: ToolCallId)
    requires TurnWord(w) && j < |w|
    ensures LegalLifecycle(Lifecycle(w[..j], id) + MarkOf(w[j], id))
    ensures w[j].TurnCompleted? ==> Settled(Lifecycle(w[..j], id))
    ensures w[j].ToolCallRequested? ==> w[j].id != ""
  {
    PrefixIsTurnWord(w, j);
  }

  /** A tool call is requested once, under a non-empty identity, before anything else happens to it. */
  lemma RequestIsFirst(w: seq<EventBody>, j: nat)
    requires TurnWord(w) && j < |w| && w[j].ToolCallRequested?
    ensures w[j].id != ""
    ensures forall i | 0 <= i < j :: MarkOf(w[i], w[j].id) == []
  {
    LegalAt(w, j, w[j].id);
    LegalNext(Lifecycle(w[..j], w[j].id), Req);
    Unmarked(w, j, w[j].id, Req);
    Unmarked(w, j, w[j].id, Perm);
    Unmarked(w, j, w[j].id, Exec);
    Unmarked(w, j, w[j].id, Res);
  }

  /** A tool call gets at most one result, and only after execution or an explicit permission request. */
  lemma ResultIsEarned(w: seq<EventBody>, j: nat) returns (i: nat)
    requires TurnWord(w) && j < |w| && w[j].ToolResultReceived?
    ensures forall k | 0 <= k < j :: !(w[k].ToolResultReceived? && w[k].id == w[j].id)
    ensures i < j && (w[i].ToolExecutionStarted? || w[i].PermissionRequested?) && w[i].id == w[j].id
  {
    LegalAt(w, j, w[j].id);
    var m := Lifecycle(w[..j], w[j].id);
    ResultNeeds(m);
    Unmarked(w, j, w[j].id, Res);
    i := MarkedAt(w, j, w[j].id, if Perm in m then Perm else Exec);
  }

  lemma RequestHasResult(w: seq<EventBody>, i: nat, j: nat) returns (k: nat)
    requires TurnWord(w) && i < j < |w| && w[i].ToolCallRequested? && w[j].TurnCompleted?
    ensures k < j && MarkOf(w[k], w[i].id) == [Res]
  {
    LegalAt(w, j, w[i].id);
    MarkPersists(w, i, j, w[i].id, Req);
    k := MarkedAt(w, j, w[i].id, Res);
  }

  /** A completed turn leaves no tool open: every request is answered in between. */
  lemma RequestIsSettled(w: seq<EventBody>, i: nat, j: nat) returns (k: nat)
    requires TurnWord(w) && i < j < |w| && w[i].ToolCallRequested? && w[j].TurnCompleted?
    ensures i < k < j && w[k].ToolResultReceived? && w[k].id == w[i].id
  {
    k := RequestHasResult(w, i, j);
    RequestIsFirst(w, i);
  }

  /** The turn starts first and only then; the terminal event is the last one. */
  lemma TurnIsFramed(w: seq<EventBody>, j: nat)
    requires TurnWord(w) && j < |w|
    ensures w[j].TurnStarted? <==> j == 0
    ensures w[j].IsTerminal() ==> j == |w| - 1
  {
  }
}
