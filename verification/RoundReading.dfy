/** The reading of one round: the stream, what the client sees of it, the limits and the names of the calls. */
module RoundReading {
  import opened Prelude
  import opened Events
  import E = Emitter
  import opened ModelProjection
  import opened ToolIds
  import opened TurnSteps
  import opened Hosts
  import opened Conduct
  import opened Ledger
  import opened Calls

  // ---------- the stream of one round ----------

  /** The model spoke and is silent again; the tools are as before. */
  ghost predicate Spoke(r: E.Run, r0: E.Run) {
    && Resting(r) && r.state.integrity.tools == r0.state.integrity.tools
    && Requests(r.word) == Requests(r0.word) && Results(r.word) == Results(r0.word)
  }

  lemma ClosedSpoke(r: E.Run, r0: E.Run, heard: seq<ModelEvent>, silent: bool)
    requires Closed(r, r0, heard, silent) && Resting(r0)
    ensures Spoke(r, r0)
  {
    var bodies := Projected(heard) + ClosingBodies(heard, silent);
    ProjectedHasNoToolEvents(heard);
    NoToolEventsAppend(Projected(heard), ClosingBodies(heard, silent));
    NoToolEventsKeepTrail(r0.word, bodies);
  }

  lemma FollowedNoRequest(r: E.Run, r0: E.Run, heard: seq<ModelEvent>)
    requires Followed(r, r0, heard) && Resting(r0)
    ensures !EndsInRequest(r.word)
  {
    ProjectedHasNoToolEvents(heard);
    NoToolEventsKeepTrail(r0.word, Projected(heard));
  }

  lemma StreamLeavesNoRequest(items: seq<StreamItem>, result: Result<ModelRound, ProjectionError>, live: bool,
                              r: E.Run, r0: E.Run)
    requires StreamWent(items, result, live, r, r0) && Resting(r0)
    ensures result.Ok? ==> Spoke(r, r0)
    ensures live && result.Err? ==> !EndsInRequest(r.word) && !result.error.SemanticEventRejected?
  {
    var heard := Heard(items);
    if result.Ok? {
      ClosedSpoke(r, r0, heard, CallsOf(heard) != []);
    } else if live && !WellOrdered(heard) {
      var k :| 0 <= k <= |heard| && Followed(r, r0, heard[..k]);
      FollowedNoRequest(r, r0, heard[..k]);
    } else if live {
      ClosedSpoke(r, r0, heard, false);
      StreamNeverRejects(items);
    }
  }

  lemma {:induction false} StreamNeverRejects(items: seq<StreamItem>)
    ensures Ending(items).Some? ==> !Ending(items).value.SemanticEventRejected? && !Ending(items).value.InvalidSequence?
  {
    if items != [] { StreamNeverRejects(items[1..]); }
  }

  /** Text was heard only from an open assistant. */
  lemma {:induction false} TextNeedsAssistant(heard: seq<ModelEvent>)
    ensures TextOf(heard) != "" ==> Opened(heard)
  {
    if heard != [] {
      var n := |heard| - 1;
      TextNeedsAssistant(heard[..n]);
      assert heard == heard[..n] + [heard[n]];
      SpokenSnoc(heard[..n], heard[n]);
    }
  }

  function FromProjection(e: ProjectionError): LoopError {
    match e
    case Cancelled => LoopError.Cancelled
    case Llm(error) => LoopError.Llm(error)
    case InvalidSequence => InvalidModelSequence
    case SemanticEventRejected => LoopError.SemanticEventRejected
  }

  /** A beginning of what a stream says. */
  ghost predicate Partly(w: seq<EventBody>, heard: seq<ModelEvent>) {
    Aside(w, EventOwner) && TextShown(w) <= TextOf(heard) && ThoughtShown(w) <= ReasoningOf(heard)
  }

  lemma {:induction false} SaidSoFar(heard: seq<ModelEvent>, n: nat)
    requires n <= |heard|
    ensures TextOf(heard[..n]) <= TextOf(heard) && ReasoningOf(heard[..n]) <= ReasoningOf(heard)
  {
    if n == |heard| {
      assert heard[..n] == heard;
    } else {
      var m := |heard| - 1;
      SaidSoFar(heard[..m], n);
      assert heard[..m][..n] == heard[..n];
    }
  }

  lemma ShownSoFar(bodies: seq<EventBody>, k: nat)
    requires k <= |bodies|
    ensures TextShown(bodies[..k]) <= TextShown(bodies) && ThoughtShown(bodies[..k]) <= ThoughtShown(bodies)
  {
    assert bodies == bodies[..k] + bodies[k..];
    ShownAppend(bodies[..k], bodies[k..]);
  }

  lemma BegunIsPartly(items: seq<StreamItem>, r: E.Run, r0: E.Run) returns (w: seq<EventBody>)
    requires Begun(items, r, r0)
    ensures r.word == r0.word + w && Partly(w, Heard(items))
  {
    var n, silent :| 0 <= n <= |Heard(items)| && CutShort(r, r0, RoundBodies(Heard(items)[..n], silent));
    var bodies := RoundBodies(Heard(items)[..n], silent);
    var k :| 0 <= k <= |bodies| && r.word == r0.word + bodies[..k];
    w := bodies[..k];
    ShownSoFar(bodies, k);
    RoundShowsAll(Heard(items)[..n], silent);
    SaidSoFar(Heard(items), n);
    RoundIsAside(Heard(items)[..n], silent);
  }

  lemma NothingIsPartly(heard: seq<ModelEvent>)
    ensures Partly([], heard)
  {
    OpenersShowNothing([]);
  }

  lemma PartlyCapped(w: seq<EventBody>, cap: seq<EventBody>, heard: seq<ModelEvent>)
    requires Partly(w, heard) && IsCap(cap)
    ensures Partly(w + cap, heard)
  {
    CapIsAside(cap);
    OpenersShowNothing(cap);
    ShownAppend(w, cap);
    NothingMore(TextShown(w));
    NothingMore(ThoughtShown(w));
  }

  /** Why the reading of a stream fails. */
  ghost predicate StreamFault(e: LoopError, cancelled: bool, items: seq<StreamItem>) {
    if cancelled then e.Cancelled?
    else match e
      case SemanticEventRejected => true
      case Cancelled => Ending(items) == Some(ProjectionError.Cancelled)
      case Llm(error) => Ending(items) == Some(ProjectionError.Llm(error))
      case InvalidModelSequence => !WellOrdered(Heard(items))
      case _ => false
  }

  /** The end of a stream that failed: the turn ends with it. */
  method BreakStream(sink: E.TurnEventEmitter, e: ProjectionError, cancelled: bool, ghost items: seq<StreamItem>,
                     ghost r0: E.Run, ghost w0: seq<EventBody>) returns (error: LoopError, ghost w: seq<EventBody>)
    requires sink.Valid() && sink.View().state.integrity.phase.Active?
    requires Live(sink) ==> !EndsInRequest(sink.View().word) && !e.SemanticEventRejected?
    requires sink.View().word == r0.word + w0 && Partly(w0, Heard(items))
    requires if cancelled then e.Cancelled? else Carried(items, Err(e))
    modifies sink, sink.bus
    ensures OneWay(sink) && error == FromProjection(e) && sink.View().word == r0.word + w
    ensures Over(Live(sink), sink.View(), error) && StreamFault(error, cancelled, items) && Partly(w, Heard(items))
  {
    hide Heard, Ending, WellOrdered, Partly;
    ghost var word := sink.View().word;
    StreamNeverRejects(items);
    error := FromProjection(e);
    Stop(sink, error);
    ghost var cap := sink.View().word[|word|..];
    PartlyCapped(w0, cap, Heard(items));
    Associative(r0.word, w0, cap);
    w := w0 + cap;
  }

  /** `consume_stream`. */
  method ConsumeStream(items: seq<StreamItem>, sink: E.TurnEventEmitter, host: Host)
    returns (r: Result<ModelRound, LoopError>, ghost cancelled: bool, ghost w: seq<EventBody>)
    requires sink.Valid() && Resting(sink.View())
    modifies sink, sink.bus, host
    ensures OneWay(sink) && host.said == old(host.said) + [CancelAsked(cancelled)]
    ensures sink.View().word == old(sink.View().word) + w
    ensures match r
      case Ok(round) => var heard := Heard(items);
        && !cancelled && Spoke(sink.View(), old(sink.View())) && w == RoundBodies(heard, CallsOf(heard) != [])
        && (round.text != "" ==> sink.View().state.integrity.workStarted)
        && round == ModelRound(TextOf(heard), CallsOf(heard), Saturated(|heard|))
        && Ending(items).None? && WellOrdered(heard)
      case Err(e) => Over(Live(sink), sink.View(), e) && StreamFault(e, cancelled, items) && Partly(w, Heard(items))
  {
    hide Heard, TextOf, CallsOf, Ending, WellOrdered, RoundBodies, Opened, Begun, Partly, StreamFault, Over;
    ghost var r0 := sink.View();
    var cancelledBefore := host.IsCancelled();
    cancelled := cancelledBefore;
    var result := ConsumeModelStream(items, cancelledBefore, sink);
    w := [];
    NothingIsPartly(Heard(items));
    NothingMore(r0.word);
    if !cancelledBefore {
      StreamLeavesNoRequest(items, result, Live(sink), sink.View(), r0);
      w := BegunIsPartly(items, sink.View(), r0);
    }
    match result {
      case Ok(round) =>
        TextNeedsAssistant(Heard(items));
        w := RoundBodies(Heard(items), CallsOf(Heard(items)) != []);
        r := Ok(round);
      case Err(e) =>
        var error;
        error, w := BreakStream(sink, e, cancelledBefore, items, r0, w);
        r := Err(error);
    }
  }

  /** A stream that was opened on this prompt with these items. */
  predicate Opens(open: Exchange, items: seq<StreamItem>) {
    open.StreamOpened? && open.stream == Ok(items)
  }

  lemma FaultIsExplained(e: LoopError, cancelled: bool, said: seq<Exchange>, tries: seq<Exchange>, open: Exchange,
                         items: seq<StreamItem>, config: Config)
    requires Calm(said) && (forall k | 0 <= k < |tries| :: tries[k].StreamOpened?) && Opens(open, items)
    requires StreamFault(e, cancelled, items)
    ensures Explains(e, said + [open, CancelAsked(cancelled)], tries + [open], config)
  {
    var x := [open, CancelAsked(cancelled)];
    assert x[..1] == [open];
    CalmSoFarAppend(said, x);
    assert (said + x)[|said + x| - 1] == CancelAsked(cancelled);
  }

  /** The reading of a stream that fails. */
  lemma ReadFalls(t: Story, terms: Terms, tries: seq<Exchange>, open: Exchange, items: seq<StreamItem>,
                  cancelled: bool, w: seq<EventBody>, e: LoopError)
    requires Good(terms.enabled, t, terms.taken, Settled(tries)) && Opens(open, items)
    requires StreamFault(e, cancelled, items) && Partly(w, Heard(items))
    ensures Halting(terms.enabled, Later(t, [open, CancelAsked(cancelled)], w, []), e, tries + [open], terms.config)
  {
    OpeningsAreOpenings(t.said);
    FaultIsExplained(e, cancelled, t.said, tries, open, items, terms.config);
    ReadHalts(terms.enabled, t, terms.taken, tries, open, [open, CancelAsked(cancelled)], w, e, terms.config);
  }

  /** The limits of a round. */
  function LimitFault(heard: seq<ModelEvent>, config: Config): Option<LoopError> {
    if heard == [] then Some(EmptyStream)
    else if |CallsOf(heard)| > config.maxToolCallsPerRound then
      Some(ToolCallLimit(|CallsOf(heard)|, config.maxToolCallsPerRound))
    else None
  }

  /** A round that was read, but cannot be acted on. */
  lemma RoundFalls(t: Story, terms: Terms, tries: seq<Exchange>, open: Exchange, items: seq<StreamItem>,
                   cap: seq<EventBody>, e: LoopError)
    requires Good(terms.enabled, t, terms.taken, DueAfter(tries, open)) && Opens(open, items) && IsCap(cap)
    requires if e.InvalidToolCall? then Malformed(CallsOf(Heard(items)))
             else LimitFault(Heard(items), terms.config) == Some(e)
    ensures Halting(terms.enabled, Later(t, [], cap, []), e, tries + [open], terms.config)
  {
    OpeningsAreOpenings(t.said);
    CapIsAside(cap);
    NothingMore(t.said);
    CalmEndsCalmly(t.said);
    GoodHalts(terms.enabled, t, terms.taken, DueAfter(tries, open), [], cap, e, terms.config);
  }

  lemma NamedPleas(calls: seq<PendingToolCall>, named: seq<PendingToolCall>, round: nat, seen: set<string>)
    requires |named| == |calls| && NamedInOrder(calls, named, round, seen)
    ensures Pleas(named) == Pleas(calls)
  {
    forall k | 0 <= k < |named|
      ensures PleaOf(named[k]) == PleaOf(calls[k])
    {
      assert NamedLike(calls[k], named[k], round, seen + Members(Ids(named)[..k]));
    }
  }

  /** A round that was read: its text, its calls under their names, and what is now due. */
  ghost predicate Read(r: E.Run, r0: E.Run, said: seq<Exchange>, log: Log, text: string, calls: seq<PendingToolCall>,
                       terms: Terms, tries: seq<Exchange>, open: Exchange) {
    && Spoke(r, r0) && text == SpokenIn(open) && Proper(open, terms.config)
    && (text != "" ==> r.state.integrity.workStarted && LastSaid(r.word) == text)
    && FreshIds(Ids(calls), terms.taken) && multiset(Pleas(calls)) == multiset(PleasIn(open))
    && Good(terms.enabled, Story(said, r.word, log), terms.taken, DueAfter(tries, open))
  }

  lemma StreamIsRead(r: E.Run, r0: E.Run, t: Story, text: string, calls: seq<PendingToolCall>, round: nat,
                     terms: Terms, tries: seq<Exchange>, open: Exchange, items: seq<StreamItem>)
    requires Good(terms.enabled, t, terms.taken, DueAfter(tries, open)) && Opens(open, items) && t.word == r.word
    requires Spoke(r, r0) && r.word == r0.word + RoundBodies(Heard(items), CallsOf(Heard(items)) != [])
    requires text == TextOf(Heard(items)) && (text != "" ==> r.state.integrity.workStarted)
    requires Ending(items).None? && WellOrdered(Heard(items)) && LimitFault(Heard(items), terms.config).None?
    requires |calls| == |CallsOf(Heard(items))| && NamedSoFar(CallsOf(Heard(items)), calls, round, terms.taken)
    ensures Read(r, r0, t.said, t.log, text, calls, terms, tries, open)
  {
    hide Good, Heard, TextOf, CallsOf, Ending, Malformed, WellOrdered, RoundBodies, Spoke, NamedInOrder, Opened;
    var heard := Heard(items);
    TextNeedsAssistant(heard);
    RoundShows(r0.word, heard, CallsOf(heard) != []);
    NamedPleas(CallsOf(heard), calls, round, terms.taken);
    assert CallsOf(heard)[..|calls|] == CallsOf(heard);
  }

  /** Reads one round: the text and the canonical calls, within the limits. */
  method ReadRound(items: seq<StreamItem>, round: nat, config: Config, seen: set<string>, sink: E.TurnEventEmitter,
                   host: Host, ghost t: Story, ghost terms: Terms, ghost tries: seq<Exchange>, ghost open: Exchange)
    returns (error: Option<LoopError>, text: string, calls: seq<PendingToolCall>, seen': set<string>)
    requires sink.Valid() && Resting(sink.View()) && terms.config == config && terms.taken == seen
    requires Good(terms.enabled, t, seen, Settled(tries)) && Opens(open, items)
    requires host.said == t.said + [open] && sink.View().word == t.word
    modifies sink, sink.bus, host
    ensures OneWay(sink)
    ensures error.None? ==>
      && seen' == seen + Members(Ids(calls))
      && Read(sink.View(), old(sink.View()), host.said, t.log, text, calls, terms, tries, open)
    ensures error.Some? ==>
      Fell(error.value, Live(sink), sink.View(), host.said, t.log, tries + [open], terms.enabled, config)
  {
    hide Good, Halting;
    text, calls, seen', error := "", [], seen, None;
    ghost var r0 := sink.View();
    var result;
    ghost var cancelled, w;
    result, cancelled, w := ConsumeStream(items, sink, host);
    NothingMore(t.log);
    Associative(t.said, [open], [CancelAsked(cancelled)]);
    assert [open] + [CancelAsked(cancelled)] == [open, CancelAsked(cancelled)];
    match result {
      case Err(e) =>
        ReadFalls(t, terms, tries, open, items, cancelled, w, e);
        error := Some(e);
      case Ok(modelRound) =>
        GoodRead(terms.enabled, t, seen, tries, open, CallsOf(Heard(items)) != []);
        error, text, calls, seen' := CheckRound(modelRound, items, round, config, seen, sink, host, r0,
                                                Story(host.said, sink.View().word, t.log), terms, tries, open);
    }
  }

  /** A round beyond the limits ends the turn. */
  method RefuseRound(sink: E.TurnEventEmitter, e: LoopError, items: seq<StreamItem>, ghost t: Story, ghost terms: Terms,
                     ghost tries: seq<Exchange>, ghost open: Exchange)
    requires sink.Valid() && Resting(sink.View()) && t.word == sink.View().word
    requires Good(terms.enabled, t, terms.taken, DueAfter(tries, open)) && Opens(open, items)
    requires LimitFault(Heard(items), terms.config) == Some(e)
    modifies sink, sink.bus
    ensures OneWay(sink) && Fell(e, Live(sink), sink.View(), t.said, t.log, tries + [open], terms.enabled, terms.config)
  {
    hide Good, Halting, Heard, CallsOf;
    Stop(sink, e);
    ghost var cap := sink.View().word[|t.word|..];
    RoundFalls(t, terms, tries, open, items, cap, e);
    assert Later(t, [], cap, []) == Story(t.said, sink.View().word, t.log);
  }

  /** The limits of a round that was read, and the names of its calls. */
  method CheckRound(modelRound: ModelRound, items: seq<StreamItem>, round: nat, config: Config, seen: set<string>,
                    sink: E.TurnEventEmitter, host: Host, ghost r0: E.Run, ghost t: Story, ghost terms: Terms,
                    ghost tries: seq<Exchange>, ghost open: Exchange)
    returns (error: Option<LoopError>, text: string, calls: seq<PendingToolCall>, seen': set<string>)
    requires sink.Valid() && Spoke(sink.View(), r0) && terms.config == config && terms.taken == seen
    requires Good(terms.enabled, t, seen, DueAfter(tries, open)) && Opens(open, items)
    requires t.said == host.said && t.word == sink.View().word
    requires var heard := Heard(items);
      && t.word == r0.word + RoundBodies(heard, CallsOf(heard) != [])
      && (modelRound.text != "" ==> sink.View().state.integrity.workStarted)
      && modelRound == ModelRound(TextOf(heard), CallsOf(heard), Saturated(|heard|))
      && Ending(items).None? && WellOrdered(heard)
    modifies sink, sink.bus
    ensures OneWay(sink)
    ensures error.None? ==>
      && seen' == seen + Members(Ids(calls))
      && Read(sink.View(), r0, host.said, t.log, text, calls, terms, tries, open)
    ensures error.Some? ==>
      Fell(error.value, Live(sink), sink.View(), host.said, t.log, tries + [open], terms.enabled, config)
  {
    hide Good, Halting, Read, Heard, TextOf, CallsOf, Ending, Malformed, WellOrdered, RoundBodies;
    text, calls, seen', error := modelRound.text, [], seen, None;
    if modelRound.eventCount == 0 {
      RefuseRound(sink, EmptyStream, items, t, terms, tries, open);
      return Some(EmptyStream), text, calls, seen';
    }
    if |modelRound.toolCalls| > config.maxToolCallsPerRound {
      var e := ToolCallLimit(|modelRound.toolCalls|, config.maxToolCallsPerRound);
      RefuseRound(sink, e, items, t, terms, tries, open);
      return Some(e), text, calls, seen';
    }
    var named;
    named, seen' := CanonicalizeToolCalls(modelRound.toolCalls, round, seen);
    if named.None? {
      RoundFalls(t, terms, tries, open, items, [], InvalidToolCall);
      StillTheSame(t);
      return Some(InvalidToolCall), text, calls, seen';
    }
    calls := named.value;
    StreamIsRead(sink.View(), r0, t, text, calls, round, terms, tries, open, items);
  }
}
