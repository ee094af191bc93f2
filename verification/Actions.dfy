/** The actions that take calls of a round, and the calls that are given up when an action ends it. */
module Actions {
  import opened Prelude
  import opened Events
  import opened Text
  import Integrity
  import E = Emitter
  import H = History
  import opened ModelProjection
  import opened ToolIds
  import opened TurnSteps
  import opened Hosts
  import opened Conduct
  import opened Ledger
  import opened Calls

  // ---------- terminal actions ----------

  /** The calls that no action consumed, in order. */
  ghost function Kept(calls: seq<PendingToolCall>, consumed: seq<bool>): seq<PendingToolCall>
    requires |calls| == |consumed|
  {
    if calls == [] then []
    else
      var n := |calls| - 1;
      Kept(calls[..n], consumed[..n]) + if consumed[n] then [] else [calls[n]]
  }

  lemma KeptSnoc(calls: seq<PendingToolCall>, k: nat, consumed: seq<bool>, now: bool)
    requires |consumed| == k < |calls|
    ensures Kept(calls[..k + 1], consumed + [now]) == Kept(calls[..k], consumed) + if now then [] else [calls[k]]
  {
    assert calls[..k + 1][..k] == calls[..k] && (consumed + [now])[..k] == consumed;
  }

  lemma {:induction false} KeptAreCalls(calls: seq<PendingToolCall>, consumed: seq<bool>)
    requires |calls| == |consumed|
    ensures forall c | c in Kept(calls, consumed) :: c in calls
  {
    if calls != [] { KeptAreCalls(calls[..|calls| - 1], consumed[..|calls| - 1]); }
  }

  /** The action that ended a round is the last one that was consumed. */
  ghost predicate EndedBy(calls: seq<PendingToolCall>, consumed: seq<bool>, name: string) {
    exists k | 0 <= k < |consumed| && k < |calls| ::
      consumed[k] && calls[k].name == name && forall j | k < j < |consumed| :: !consumed[j]
  }

  lemma EndedBySnoc(calls: seq<PendingToolCall>, consumed: seq<bool>, now: bool)
    requires |consumed| < |calls|
    ensures now ==> EndedBy(calls, consumed + [now], calls[|consumed|].name)
    ensures !now ==> forall name | EndedBy(calls, consumed, name) :: EndedBy(calls, consumed + [now], name)
  {
  }

  type Closing = Option<(string, string)>

  /** What the offer of a call was answered: nothing if the turn was cancelled before. */
  function Offer(call: PendingToolCall, action: Option<ActionAnswer>): seq<Exchange> {
    [CancelAsked(action.None?)] + if action.Some? then [ActionAsked(call, action.value)] else []
  }

  predicate Takes(action: Option<ActionAnswer>) {
    action.Some? && (action.value.EndsRound? || action.value.Consumed?)
  }

  function OfferFault(action: Option<ActionAnswer>): LoopError {
    if action == Some(ActionFailed) then Action else LoopError.Cancelled
  }

  /** What a round has the user say at its end. */
  function Words(ending: Closing): seq<string> {
    if ending.Some? && Trim(ending.value.1) != "" then [ending.value.1] else []
  }

  /** Offers one call to the action handler. */
  method AskAction(sink: E.TurnEventEmitter, call: PendingToolCall, host: Host)
    returns (error: Option<LoopError>, ending: Closing, ghost action: Option<ActionAnswer>)
    requires sink.Valid() && Resting(sink.View())
    modifies sink, sink.bus, host
    ensures OneWay(sink) && host.said == old(host.said) + Offer(call, action)
    ensures error.None? <==> Takes(action)
    ensures match error
      case None =>
        && sink.View() == old(sink.View())
        && ending == if action.value.EndsRound? then Some((call.name, action.value.userText)) else None
      case Some(e) =>
        e == OfferFault(action) && Over(Live(sink), sink.View(), e) && Capped(sink.View().word, old(sink.View().word))
  {
    error, ending := None, None;
    var cancelled := EnsureNotCancelled(sink, host);
    action := None;
    NothingMore([CancelAsked(true)]);
    if cancelled { return Some(LoopError.Cancelled), None, action; }
    ghost var said := host.said;
    var answer := host.HandleAction(call);
    action := Some(answer);
    Associative(old(host.said), [CancelAsked(false)], [ActionAsked(call, answer)]);
    match answer {
      case EndsRound(userText) => ending := Some((call.name, userText));
      case Consumed =>
      case ActionCancelled =>
        Stop(sink, LoopError.Cancelled);
        error := Some(LoopError.Cancelled);
      case ActionFailed =>
        Stop(sink, Action);
        error := Some(Action);
    }
  }

  lemma OfferPicks(call: PendingToolCall, action: Option<ActionAnswer>)
    ensures var x := Offer(call, action);
      && Pick(x, OpeningIn) == []
      && Pick(x, TakenIn) == (if Takes(action) then [PleaOf(call)] else [])
      && Pick(x, EndingIn)
         == (if action.Some? && action.value.EndsRound? then Words(Some(("", action.value.userText))) else [])
  {
    var x := Offer(call, action);
    PickNothing(x, OpeningIn);
    if action.Some? {
      PickAppend([CancelAsked(false)], [ActionAsked(call, action.value)], TakenIn);
      PickAppend([CancelAsked(false)], [ActionAsked(call, action.value)], EndingIn);
      PickOne(CancelAsked(false), TakenIn);
      PickOne(CancelAsked(false), EndingIn);
      PickOne(ActionAsked(call, action.value), TakenIn);
      PickOne(ActionAsked(call, action.value), EndingIn);
    } else {
      PickNothing(x, TakenIn);
      PickNothing(x, EndingIn);
    }
  }

  lemma OfferIsLawful(enabled: bool, call: PendingToolCall, action: Option<ActionAnswer>)
    ensures var x := Offer(call, action);
      && OnlyAbout(x, ExchangeOwner, call.id)
      && LawfulCall(enabled, About(x, ExchangeOwner, call.id), [], [])
      && forall e | e in x :: !e.PermissionNeeded?
  {
    var flag, own := [CancelAsked(action.None?)], if action.Some? then [ActionAsked(call, action.value)] else [];
    AboutAppend(flag, own, ExchangeOwner, call.id);
    AsideUntouched(flag, ExchangeOwner, call.id);
    AboutAll(own, ExchangeOwner, call.id);
    NothingMore(own);
    if action.Some? { ActionIsLawful(enabled, call, action.value); } else { NothingIsLawful(enabled); }
  }

  /** What becomes of the balance when an action takes a call. */
  predicate Takeover(due: Due, due': Due, call: PendingToolCall, action: ActionAnswer) {
    && due'.tries == due.tries && due'.texts == due.texts && due.pleas == multiset([PleaOf(call)]) + due'.pleas
    && due'.users == due.users + if action.EndsRound? then Words(Some(("", action.userText))) else []
  }

  lemma OfferPays(due: Due, due': Due, call: PendingToolCall, action: Option<ActionAnswer>)
    requires Takes(action) && Takeover(due, due', call, action.value)
    ensures Pays(due, due', Offer(call, action), [], [])
  {
    hide Offer, TextShown, ThoughtShown, Words;
    OfferPicks(call, action);
    OpenersShowNothing([]);
    NothingMore(due'.tries);
    NothingMore(due'.texts);
    NothingMore(due'.users);
  }

  /** A call that an action took is no longer due. */
  lemma TakenIsGood(terms: Terms, t: Story, call: PendingToolCall, action: Option<ActionAnswer>, due': Due)
    requires Good(terms.enabled, t, terms.taken, terms.due) && call.id !in terms.taken && Takes(action)
    requires Takeover(terms.due, due', call, action.value)
    ensures Good(terms.enabled, Story(t.said + Offer(call, action), t.word, t.log), terms.taken + {call.id}, due')
  {
    hide Good, LawfulCall, Pays, Takeover;
    OfferIsLawful(terms.enabled, call, action);
    OfferPays(terms.due, due', call, action);
    NothingMore(t.word);
    NothingMore(t.log);
    GoodSnoc(terms.enabled, t, terms.taken, terms.due, due', call.id, Offer(call, action), [], []);
  }

  /** An action that cancels the turn, or fails. */
  lemma OfferFalls(terms: Terms, t: Story, call: PendingToolCall, action: Option<ActionAnswer>, cap: seq<EventBody>)
    requires Good(terms.enabled, t, terms.taken, terms.due) && call.id !in terms.taken && !Takes(action) && IsCap(cap)
    ensures Halting(terms.enabled, Story(t.said + Offer(call, action), t.word + cap, t.log), OfferFault(action),
                    terms.due.tries, terms.config)
  {
    hide Halting, LawfulCall, Explains, Owes;
    var x := Offer(call, action);
    OfferIsLawful(terms.enabled, call, action);
    CapIsAside(cap);
    AsideUntouched(cap, EventOwner, call.id);
    NothingMore(t.log);
    OpeningsOf(t, terms.due);
    OfferIsExplained(terms, t, call, action);
    CallHalts(terms.enabled, t, terms.taken, terms.due, call.id, x, cap, OfferFault(action), terms.config);
  }

  lemma OpeningsOf(t: Story, due: Due)
    requires Owes(t, due)
    ensures Pick(t.said, OpeningIn) == due.tries
  {
  }

  lemma OfferIsExplained(terms: Terms, t: Story, call: PendingToolCall, action: Option<ActionAnswer>)
    requires Calm(t.said) && Pick(t.said, OpeningIn) == terms.due.tries && !Takes(action)
    ensures Explains(OfferFault(action), t.said + Offer(call, action), terms.due.tries, terms.config)
  {
    var x := Offer(call, action);
    OpeningsAreOpenings(t.said);
    assert x[..|x| - 1] == if action.Some? then [CancelAsked(false)] else [];
    CalmSoFarAppend(t.said, x);
    assert (t.said + x)[|t.said + x| - 1] == x[|x| - 1];
  }

  /** The calls up to `k` have been offered: these remain, after this ending. */
  ghost predicate Offered(calls: seq<PendingToolCall>, k: nat, executable: seq<PendingToolCall>,
                          ending: Closing, consumed: seq<bool>) {
    && k == |consumed| <= |calls| && executable == Kept(calls[..k], consumed)
    && (ending.Some? ==> EndedBy(calls, consumed, ending.value.0))
  }

  lemma OfferedSnoc(calls: seq<PendingToolCall>, k: nat, executable: seq<PendingToolCall>,
                    ending: Closing, ending': Closing, consumed: seq<bool>, now: bool)
    requires Offered(calls, k, executable, ending, consumed) && k < |calls|
    requires if now then ending'.Some? ==> ending'.value.0 == calls[k].name else ending' == ending
    ensures Offered(calls, k + 1, executable + if now then [] else [calls[k]], ending', consumed + [now])
  {
    KeptSnoc(calls, k, consumed, now);
    EndedBySnoc(calls, consumed, now);
  }

  lemma AllOffered(calls: seq<PendingToolCall>, executable: seq<PendingToolCall>, ending: Closing, consumed: seq<bool>)
    requires Offered(calls, |calls|, executable, ending, consumed)
    ensures |consumed| == |calls| && executable == Kept(calls, consumed)
    ensures (forall c | c in executable :: c in calls) && (ending.Some? ==> EndedBy(calls, consumed, ending.value.0))
  {
    assert calls[..|calls|] == calls;
    KeptAreCalls(calls, consumed);
  }

  /** What is due while the calls of a round are offered: those that remain, and those still to be offered. */
  function DueOf(due: Due, left: seq<PendingToolCall>, ending: Closing): Due {
    Due(due.tries, multiset(Pleas(left)), due.texts, Words(ending))
  }

  lemma PleasOne(before: seq<PendingToolCall>, call: PendingToolCall, after: seq<PendingToolCall>)
    ensures multiset(Pleas(before + ([call] + after))) == multiset([PleaOf(call)]) + multiset(Pleas(before + after))
  {
    assert Pleas(before + ([call] + after)) == Pleas(before) + ([PleaOf(call)] + Pleas(after));
    assert Pleas(before + after) == Pleas(before) + Pleas(after);
  }

  lemma FreshWithout(a: seq<string>, id: string, b: seq<string>, taken: set<string>)
    requires FreshIds(a + ([id] + b), taken)
    ensures FreshIds(a + b, taken + {id}) && id !in taken
  {
    var all := a + ([id] + b);
    assert all[|a|] == id;
    forall i | 0 <= i < |a + b|
      ensures (a + b)[i] == all[if i < |a| then i else i + 1]
    {
    }
  }

  lemma IdsOfParts(a: seq<PendingToolCall>, call: PendingToolCall, b: seq<PendingToolCall>)
    ensures Ids(a + ([call] + b)) == Ids(a) + ([call.id] + Ids(b)) && Ids(a + b) == Ids(a) + Ids(b)
  {
  }

  /** The calls that are left are new, and the turn is in good order if they are what is due. */
  ghost predicate Offering(t: Story, terms: Terms, taken: set<string>, calls: seq<PendingToolCall>,
                           left: seq<PendingToolCall>, ending: Closing) {
    && FreshIds(Ids(left), taken) && terms.taken <= taken <= terms.taken + Members(Ids(calls))
    && Good(terms.enabled, t, taken, DueOf(terms.due, left, ending))
  }

  /** The next call is taken by an action. */
  lemma OfferingNext(t: Story, terms: Terms, taken: set<string>, calls: seq<PendingToolCall>,
                     before: seq<PendingToolCall>, call: PendingToolCall, after: seq<PendingToolCall>,
                     action: Option<ActionAnswer>, ending: Closing)
    requires Offering(t, terms, taken, calls, before + ([call] + after), None) && call in calls && Takes(action)
    requires ending == if action.value.EndsRound? then Some((call.name, action.value.userText)) else None
    ensures Offering(Story(t.said + Offer(call, action), t.word, t.log), terms, taken + {call.id}, calls,
                     before + after, ending)
  {
    hide Good;
    IdsOfParts(before, call, after);
    FreshWithout(Ids(before), call.id, Ids(after), taken);
    PleasOne(before, call, after);
    var due, due' := DueOf(terms.due, before + ([call] + after), None), DueOf(terms.due, before + after, ending);
    TakenIsGood(Terms(terms.enabled, taken, due, terms.config), t, call, action, due');
    var i :| 0 <= i < |calls| && calls[i] == call;
    assert Ids(calls)[i] == call.id;
  }

  lemma OfferingEnds(t: Story, terms: Terms, taken: set<string>, calls: seq<PendingToolCall>,
                     before: seq<PendingToolCall>, call: PendingToolCall, after: seq<PendingToolCall>,
                     action: Option<ActionAnswer>, cap: seq<EventBody>)
    requires Offering(t, terms, taken, calls, before + ([call] + after), None) && !Takes(action) && IsCap(cap)
    ensures Halting(terms.enabled, Story(t.said + Offer(call, action), t.word + cap, t.log), OfferFault(action),
                    terms.due.tries, terms.config)
  {
    hide Good, Halting;
    IdsOfParts(before, call, after);
    FreshWithout(Ids(before), call.id, Ids(after), taken);
    OfferFalls(Terms(terms.enabled, taken, DueOf(terms.due, before + ([call] + after), None), terms.config),
               t, call, action, cap);
  }

  /** Whether an action knows a call is asked without consequence. */
  lemma OfferingAsked(t: Story, terms: Terms, taken: set<string>, calls: seq<PendingToolCall>,
                      left: seq<PendingToolCall>, ending: Closing, x: Exchange)
    requires Offering(t, terms, taken, calls, left, ending) && x.SupportAsked?
    ensures Offering(Story(t.said + [x], t.word, t.log), terms, taken, calls, left, ending)
  {
    hide Good;
    NothingMore(t.word);
    NothingMore(t.log);
    GoodAside(terms.enabled, t, taken, DueOf(terms.due, left, ending), [x], []);
  }

  lemma OfferingStarts(t: Story, terms: Terms, calls: seq<PendingToolCall>)
    requires Good(terms.enabled, t, terms.taken, terms.due) && FreshIds(Ids(calls), terms.taken)
    requires terms.due.pleas == multiset(Pleas(calls)) && terms.due.users == []
    ensures Offering(t, terms, terms.taken, calls, [] + calls[0..], None)
  {
    hide Good;
    assert [] + calls[0..] == calls;
    assert DueOf(terms.due, calls, None) == terms.due;
  }

  /** Offers each call to the action handler, up to the first action that ends the round. */
  method AskActions(sink: E.TurnEventEmitter, calls: seq<PendingToolCall>, host: Host, ghost log: Log,
                    ghost terms: Terms)
    returns (error: Option<LoopError>, executable: seq<PendingToolCall>, ending: Closing,
             ghost consumed: seq<bool>, ghost taken: set<string>)
    requires sink.Valid() && Resting(sink.View()) && FreshIds(Ids(calls), terms.taken)
    requires Good(terms.enabled, Story(host.said, sink.View().word, log), terms.taken, terms.due)
    requires terms.due.pleas == multiset(Pleas(calls)) && terms.due.users == []
    modifies sink, sink.bus, host
    ensures OneWay(sink)
    ensures error.None? ==>
      && sink.View() == old(sink.View())
      && |consumed| == |calls| && executable == Kept(calls, consumed) && (forall c | c in executable :: c in calls)
      && (ending.Some? ==> EndedBy(calls, consumed, ending.value.0))
      && Offering(Story(host.said, sink.View().word, log), terms, taken, calls, executable, ending)
    ensures error.Some? ==>
      Fell(error.value, Live(sink), sink.View(), host.said, log, terms.due.tries, terms.enabled, terms.config)
  {
    hide Good, Halting, Offering, Offered;
    executable, ending, error, consumed, taken := [], None, None, [], terms.taken;
    OfferingStarts(Story(host.said, sink.View().word, log), terms, calls);
    NothingOffered(calls);
    for k := 0 to |calls|
      invariant OneWay(sink) && sink.View() == old(sink.View()) && error.None?
      invariant Offered(calls, k, executable, ending, consumed)
      invariant Offering(Story(host.said, sink.View().word, log), terms, taken, calls, executable + calls[k..], ending)
    {
      error, executable, ending, consumed, taken :=
        OfferCall(sink, calls, k, host, executable, ending, consumed, taken, log, terms);
      if error.Some? { return; }
    }
    AllOffered(calls, executable, ending, consumed);
    assert executable + calls[|calls|..] == executable;
  }

  lemma NothingOffered(calls: seq<PendingToolCall>)
    ensures Offered(calls, 0, [], None, [])
  {
  }

  /** Offers the next call, unless the round has been ended by an action. */
  method OfferCall(sink: E.TurnEventEmitter, calls: seq<PendingToolCall>, k: nat, host: Host,
                   executable0: seq<PendingToolCall>, ending0: Closing, ghost consumed0: seq<bool>,
                   ghost taken0: set<string>, ghost log: Log, ghost terms: Terms)
    returns (error: Option<LoopError>, executable: seq<PendingToolCall>, ending: Closing,
             ghost consumed: seq<bool>, ghost taken: set<string>)
    requires sink.Valid() && Resting(sink.View()) && k < |calls|
    requires Offered(calls, k, executable0, ending0, consumed0)
    requires Offering(Story(host.said, sink.View().word, log), terms, taken0, calls, executable0 + calls[k..], ending0)
    modifies sink, sink.bus, host
    ensures OneWay(sink)
    ensures error.None? ==>
      && sink.View() == old(sink.View()) && Offered(calls, k + 1, executable, ending, consumed)
      && Offering(Story(host.said, sink.View().word, log), terms, taken, calls, executable + calls[k + 1..], ending)
    ensures error.Some? ==>
      Fell(error.value, Live(sink), sink.View(), host.said, log, terms.due.tries, terms.enabled, terms.config)
  {
    hide Good, Halting, Offering, Offered;
    executable, ending, error, consumed, taken := executable0, ending0, None, consumed0, taken0;
    var call := calls[k];
    ghost var t := Story(host.said, sink.View().word, log);
    assert calls[k..] == [call] + calls[k + 1..];
    var supported := false;
    if ending.None? {
      supported := host.Supports(call.name);
      OfferingAsked(t, terms, taken, calls, executable + calls[k..], ending, SupportAsked(call.name, supported));
      t := Story(host.said, sink.View().word, log);
    }
    if supported {
      var ending';
      ghost var action;
      error, ending', action := AskAction(sink, call, host);
      if error.Some? {
        ghost var cap := sink.View().word[|t.word|..];
        OfferingEnds(t, terms, taken, calls, executable, call, calls[k + 1..], action, cap);
        assert t.word + cap == sink.View().word;
        return;
      }
      OfferingNext(t, terms, taken, calls, executable, call, calls[k + 1..], action, ending');
      OfferedSnoc(calls, k, executable, ending, ending', consumed, true);
      taken, ending := taken + {call.id}, ending';
      NothingMore(executable);
    } else {
      OfferedSnoc(calls, k, executable, ending, ending, consumed, false);
      Associative(executable, [call], calls[k + 1..]);
      executable := executable + [call];
    }
    consumed := consumed + [supported];
  }

  function AbandonedMessage(action: string): string {
    "non ex\U{E9}cut\U{E9} : appel abandonn\U{E9} suite \U{E0} l'action \U{AB} " + action + " \U{BB}"
  }

  /** Reports an abandoned call. The request may be accepted, but never the result: the turn fails. */
  method AbandonCall(sink: E.TurnEventEmitter, call: PendingToolCall, message: string, host: Host)
    returns (ok: bool, ghost ui: Option<ToolUi>, ghost shown: seq<EventBody>)
    requires sink.Valid()
    modifies sink, sink.bus, host
    ensures OneWay(sink) && host.said == old(host.said) + [UiAsked(call, ui)]
    ensures shown == [] || shown == [ToolCallRequested(call.id, call.name, FailedUi(ui))]
    ensures old(Resting(sink.View())) && call.id != "" && old(call.id !in sink.View().state.integrity.tools) ==>
      && !ok && Over(Live(sink), sink.View(), LoopError.SemanticEventRejected)
      && Capped(sink.View().word, old(sink.View().word) + shown)
  {
    ghost var r0 := sink.View();
    var picture := host.UiModel(call);
    ui := picture;
    ghost var request := ToolCallRequested(call.id, call.name, FailedUi(picture));
    ok := RequestCall(sink, call.id, call.name, FailedUi(picture));
    shown := if ok then [request] else [];
    if ok {
      ok := ResultTooEarly(sink, call.id, message, FailedUi(picture), r0, [request]);
    }
    if !ok {
      ghost var word := sink.View().word;
      var ended := EndTurn(sink, Integrity.Failed);
      AbandonedWord(r0.word, request);
      CappedBy(word, if ended then [TurnFailed] else []);
      NothingMore(word);
    }
  }

  lemma AbandonedWord(word: seq<EventBody>, request: EventBody)
    requires request.ToolCallRequested?
    ensures EndsAbandoned((word + [request]) + [TurnFailed])
  {
    assert ((word + [request]) + [TurnFailed])[..|word| + 1] == word + [request];
  }

  /** A turn that is about to give up the calls that are left. */
  ghost predicate Leaving(r: E.Run, said: seq<Exchange>, log: Log, calls: seq<PendingToolCall>, terms: Terms) {
    && Resting(r) && FreshIds(Ids(calls), r.state.integrity.tools.Keys) && FreshIds(Ids(calls), terms.taken)
    && Good(terms.enabled, Story(said, r.word, log), terms.taken, terms.due)
  }

  lemma AbandonFalls(r: E.Run, r0: E.Run, said: seq<Exchange>, log: Log, calls: seq<PendingToolCall>, terms: Terms,
                     ui: Option<ToolUi>, shown: seq<EventBody>)
    requires calls != [] && Leaving(r0, said, log, calls, terms) && Capped(r.word, r0.word + shown)
    requires shown == [] || shown == [ToolCallRequested(calls[0].id, calls[0].name, FailedUi(ui))]
    ensures Halting(terms.enabled, Story(said + [UiAsked(calls[0], ui)], r.word, log), LoopError.SemanticEventRejected,
                    terms.due.tries, terms.config)
  {
    hide Good, Halting, Dealt, Explains;
    var call := calls[0];
    var cap := r.word[|r0.word + shown|..];
    var x, t := [UiAsked(call, ui)], Story(said, r0.word, log);
    assert Ids(calls)[0] == call.id;
    RequestIsDealt(terms.enabled, call, ui, [], shown, cap, shown + cap);
    NothingMore(x);
    NothingMore(log);
    Associative(r0.word, shown, cap);
    assert r.word == r0.word + (shown + cap);
    AbandonIsExplained(terms, t, call, ui);
    DealtHalts(terms.enabled, t, terms.taken, terms.due, call, x, shown + cap, LoopError.SemanticEventRejected,
               terms.config);
  }

  lemma AbandonIsExplained(terms: Terms, t: Story, call: PendingToolCall, ui: Option<ToolUi>)
    requires Good(terms.enabled, t, terms.taken, terms.due)
    ensures Explains(LoopError.SemanticEventRejected, t.said + [UiAsked(call, ui)], terms.due.tries, terms.config)
  {
    OpeningsAreOpenings(t.said);
    CalmSoFarAppend(t.said, [UiAsked(call, ui)]);
  }

  /** Reports the next abandoned call and, should that succeed, appends it to the history. */
  method AbandonNext(sink: E.TurnEventEmitter, calls: seq<PendingToolCall>, k: nat, message: string, host: Host,
                     history: H.History, ghost log0: Log, ghost terms: Terms) returns (ok: bool, ghost log: Log)
    requires sink.Valid() && Recent(history.legacy, log0) && k < |calls|
    modifies sink, sink.bus, history, host
    ensures OneWay(sink) && log0 <= log && Recent(history.legacy, log)
    ensures k == 0 && old(Leaving(sink.View(), host.said, log0, calls, terms)) ==>
      && !ok && log == log0
      && Fell(LoopError.SemanticEventRejected, Live(sink), sink.View(), host.said, log, terms.due.tries, terms.enabled,
              terms.config)
  {
    hide Good, Halting;
    log := log0;
    ghost var r0, said, ui, shown := sink.View(), host.said, None, [];
    ok, ui, shown := AbandonCall(sink, calls[k], message, host);
    if k == 0 && Leaving(r0, said, log0, calls, terms) {
      assert Ids(calls)[0] == calls[0].id;
      AbandonFalls(sink.View(), r0, said, log0, calls, terms, ui, shown);
    }
    if ok {
      log := Push(history, CallEntry(calls[k]), log);
      log := Push(history, H.ToolResult(calls[k].id, calls[k].name, message, false), log);
    }
  }

  function UserEntries(text: string): Log {
    if Trim(text) != "" then [H.User(text)] else []
  }

  /** Appends what the user is told at the end of a round. */
  method PushUser(history: H.History, text: string, ghost log0: Log) returns (ghost log: Log)
    requires Recent(history.legacy, log0)
    modifies history
    ensures log == log0 + UserEntries(text) && Recent(history.legacy, log)
  {
    log := log0;
    if Trim(text) != "" {
      log := Push(history, H.User(text), log);
    } else {
      NothingMore(log);
    }
  }

  /** Ends a round on a terminal action. Calls left over are reported as abandoned: the turn fails if there are any. */
  method AbandonCalls(sink: E.TurnEventEmitter, calls: seq<PendingToolCall>, action: string, userText: string,
                      host: Host, history: H.History, ghost log0: Log, ghost terms: Terms)
    returns (error: Option<LoopError>, ghost log: Log)
    requires sink.Valid() && Recent(history.legacy, log0)
    modifies sink, sink.bus, history, host
    ensures OneWay(sink) && log0 <= log && Recent(history.legacy, log)
    ensures old(Leaving(sink.View(), host.said, log0, calls, terms)) ==>
      if calls == [] then
        && error.None? && sink.View() == old(sink.View()) && host.said == old(host.said)
        && log == log0 + UserEntries(userText)
      else
        && error == Some(LoopError.SemanticEventRejected)
        && Fell(error.value, Live(sink), sink.View(), host.said, log, terms.due.tries, terms.enabled, terms.config)
  {
    hide Leaving, Fell;
    ghost var calm, r0, said := Leaving(sink.View(), host.said, log0, calls, terms), sink.View(), host.said;
    log := log0;
    for k := 0 to |calls|
      invariant OneWay(sink) && log0 <= log && Recent(history.legacy, log)
      invariant calm ==> k == 0 && sink.View() == r0 && log == log0 && host.said == said
    {
      var ok;
      ok, log := AbandonNext(sink, calls, k, AbandonedMessage(action), host, history, log, terms);
      if !ok { return Some(LoopError.SemanticEventRejected), log; }
    }
    log := PushUser(history, userText, log);
    error := None;
  }

  /** What the user is told at the end of a round is paid for when it is appended. */
  lemma WordsArePaid(enabled: bool, t: Story, taken: set<string>, due: Due, ending: Closing)
    requires Good(enabled, t, taken, due) && ending.Some? && due.users == Words(ending)
    ensures Good(enabled, Later(t, [], [], UserEntries(ending.value.1)), taken, due.(users := []))
  {
    hide Good, Lawful;
    var text := ending.value.1;
    if Trim(text) != "" {
      EntryPays(due, due.(users := []), H.User(text));
      GoodEntry(enabled, t, taken, due, due.(users := []), H.User(text));
    } else {
      StillTheSame(t);
    }
  }
}
