/** The model and tool loop of one turn: what it publishes, what it appends to the history, how it ends. */
module AgentLoop {
  import opened Prelude
  import opened Events
  import opened Text
  import Integrity
  import E = Emitter
  import H = History
  import HistoryRecovery
  import C = Compaction
  import opened ModelProjection
  import opened ToolIds
  import opened TurnSteps
  import opened Hosts
  import opened Conduct
  import opened Ledger
  import opened Calls
  import opened RoundReading
  import opened Actions

  /** The settings of a session that the loop reads. */
  datatype Settings = Settings(id: string, model: string, toolsEnabled: bool) {
    predicate Valid() {
      Trim(id) != "" && Trim(model) != ""
    }
  }

  method Compact(history: H.History, target: nat, ghost log: Log)
    requires Recent(history.legacy, log)
    modifies history
    ensures Recent(history.legacy, log)
    ensures C.CompactsTo(old(history.legacy), target, IsUser, TextSize, history.legacy)
  {
    var compacted := C.CompactMessages(history.legacy, target, IsUser, TextSize);
    var texts := HistoryRecovery.LegacyOf(log);
    if C.Users(texts, IsUser) < C.PRESERVE_TURNS {
      C.RecentMessagesStay(history.legacy, target, IsUser, TextSize, compacted, texts);
    }
    history.RewriteLegacy(compacted);
  }

  // ---------- how a turn stands ----------

  /** Calls and results pair one to one by identity, and the word shows the same calls and results. */
  ghost predicate Paired(word: seq<EventBody>, log: Log, total: nat) {
    && Requests(word) == CallsIn(log) && Results(word) == ResultsIn(log)
    && Firsts(CallsIn(log)) == Firsts(ResultsIn(log))
    && Distinct(Firsts(CallsIn(log)))
    && |CallsIn(log)| == total
  }

  /** Between two rounds. */
  ghost predicate Balanced(r: E.Run, log: Log, total: nat, seen: set<string>) {
    && Resting(r) && Paired(r.word, log, total)
    && r.state.integrity.tools.Keys <= seen
    && Members(Firsts(CallsIn(log))) <= r.state.integrity.tools.Keys
  }

  // ---------- the end of a round ----------

  datatype Step = Next | Done(outcome: Outcome) | Halt(error: LoopError)

  /** A completed turn: what it returns, publishes and appends. */
  ghost predicate Finished(r: E.Run, log: Log, outcome: Outcome, config: Config) {
    && r.state.integrity.phase.Terminal?
    && r.word != [] && r.word[|r.word| - 1] == TurnCompleted
    && Paired(r.word, log, outcome.toolCalls) && outcome.toolCalls <= config.maxToolCallsPerTurn
    && Trim(outcome.output) != "" && log != [] && log[|log| - 1] == H.Assistant(outcome.output)
    && outcome.rounds <= config.maxRounds
  }

  /** How a round leaves the turn. Only an invalid tool call leaves it running. */
  ghost predicate RoundWent(step: Step, live: bool, r: E.Run, said: seq<Exchange>, log: Log, total: nat,
                            seen: set<string>, tries: seq<Exchange>, enabled: bool, config: Config) {
    match step
    case Next =>
      && Balanced(r, log, total, seen) && total <= config.maxToolCallsPerTurn
      && Good(enabled, Story(said, r.word, log), seen, Settled(tries))
    case Done(outcome) =>
      Finished(r, log, outcome, config) && Fulfilled(enabled, Story(said, r.word, log), outcome, config)
    case Halt(e) => Fell(e, live, r, said, log, tries, enabled, config)
  }

  /** Asks whether the turn was cancelled, and stops it if it was. */
  method CheckCancelled(sink: E.TurnEventEmitter, host: Host, ghost log: Log, ghost terms: Terms)
    returns (cancelled: bool)
    requires sink.Valid() && Resting(sink.View())
    requires Good(terms.enabled, Story(host.said, sink.View().word, log), terms.taken, terms.due)
    modifies sink, sink.bus, host
    ensures OneWay(sink)
    ensures if cancelled then
              Fell(LoopError.Cancelled, Live(sink), sink.View(), host.said, log, terms.due.tries, terms.enabled,
                   terms.config)
            else
              && sink.View() == old(sink.View())
              && Good(terms.enabled, Story(host.said, sink.View().word, log), terms.taken, terms.due)
  {
    hide Good, Halting;
    ghost var t := Story(host.said, sink.View().word, log);
    cancelled := EnsureNotCancelled(sink, host);
    if cancelled {
      ghost var cap := sink.View().word[|t.word|..];
      CapIsAside(cap);
      CancelFalls(terms.enabled, t, terms.taken, terms.due, cap, terms.config);
      assert t.word + cap == sink.View().word;
    } else {
      CancelPasses(terms.enabled, t, terms.taken, terms.due);
    }
  }

  /** Ends a turn at rest with an error that is explained. */
  method Fail(sink: E.TurnEventEmitter, e: LoopError, ghost said: seq<Exchange>, ghost log: Log, ghost terms: Terms)
    requires sink.Valid() && Resting(sink.View()) && !e.InvalidToolCall? && !e.SemanticEventRejected?
    requires Good(terms.enabled, Story(said, sink.View().word, log), terms.taken, terms.due)
    requires Explains(e, said, terms.due.tries, terms.config)
    modifies sink, sink.bus
    ensures OneWay(sink)
    ensures Fell(e, Live(sink), sink.View(), said, log, terms.due.tries, terms.enabled, terms.config)
  {
    hide Good, Halting, Explains;
    ghost var t := Story(said, sink.View().word, log);
    Stop(sink, e);
    ghost var cap := sink.View().word[|t.word|..];
    CapIsAside(cap);
    StopFalls(terms.enabled, t, terms.taken, terms.due, cap, e, terms.config);
    assert t.word + cap == sink.View().word;
  }

  /** The last stream of the round that is being played. */
  ghost predicate LastRead(tries: seq<Exchange>, text: string, config: Config) {
    tries != [] && Proper(tries[|tries| - 1], config) && text == SpokenIn(tries[|tries| - 1])
  }

  lemma GoodIsCalm(enabled: bool, t: Story, taken: set<string>, due: Due)
    requires Good(enabled, t, taken, due)
    ensures Calm(t.said) && Pick(t.said, OpeningIn) == due.tries
    ensures forall k | 0 <= k < |due.tries| :: due.tries[k].StreamOpened?
  {
    OpeningsAreOpenings(t.said);
  }

  lemma NoProgressIsExplained(t: Story, terms: Terms, text: string)
    requires Good(terms.enabled, t, terms.taken, terms.due) && LastRead(terms.due.tries, text, terms.config)
    requires Trim(text) == ""
    ensures Explains(NoProgress, t.said, terms.due.tries, terms.config)
  {
    hide Good, Trim, TextOf, Heard, Ending, WellOrdered, Malformed, CallsOf, Pick;
    GoodIsCalm(terms.enabled, t, terms.taken, terms.due);
    CalmEndsCalmly(t.said);
  }

  lemma RejectionIsExplained(t: Story, terms: Terms)
    requires Good(terms.enabled, t, terms.taken, terms.due)
    ensures Explains(LoopError.SemanticEventRejected, t.said, terms.due.tries, terms.config)
  {
    hide Good;
    GoodIsCalm(terms.enabled, t, terms.taken, terms.due);
    CalmEndsCalmly(t.said);
  }

  /** The text of the last round has been appended and the completion published. */
  lemma CompletedIsFulfilled(t: Story, terms: Terms, text: string, round: nat, total: nat)
    requires Good(terms.enabled, t, terms.taken, terms.due) && LastRead(terms.due.tries, text, terms.config)
    requires terms.due == Settled(terms.due.tries) && Tried(terms.due.tries, t.log, terms.config)
    requires |terms.due.tries| == round + 1 && LastSaid(t.word) == text
    ensures Fulfilled(terms.enabled, Story(t.said, t.word + [TurnCompleted], t.log), Outcome(text, round + 1, total),
                      terms.config)
  {
    hide Good, Owes, Proper, Tried, Pick, Obeys, Recorded, Calm, SpokenIn;
    NothingMore(t.said);
    NothingMore(t.log);
    GoodAside(terms.enabled, t, terms.taken, terms.due, [], [TurnCompleted]);
    ShownSnoc(t.word, TurnCompleted);
    NothingMore(text);
    GoodIsFulfilled(terms, Story(t.said, t.word + [TurnCompleted], t.log));
  }

  lemma GoodIsFulfilled(terms: Terms, t: Story)
    requires Good(terms.enabled, t, terms.taken, terms.due)
    ensures Obeys(terms.enabled, t) && Calm(t.said) && Recorded(t.said, t.log) && Owes(t, terms.due)
    ensures Pick(t.said, OpeningIn) == terms.due.tries
  {
    LawfulObeys(terms.enabled, t, terms.taken);
  }

  lemma BalancedRests(r: E.Run, log: Log, total: nat, seen: set<string>)
    requires Balanced(r, log, total, seen)
    ensures Resting(r)
  {
  }

  lemma TextIsKept(t: Story, terms: Terms, text: string, r: E.Run, total: nat, seen: set<string>)
    requires Good(terms.enabled, t, terms.taken, terms.due) && Balanced(r, t.log, total, seen)
    requires terms.due == Due(terms.due.tries, multiset{}, if Trim(text) != "" then [text] else [], [])
    ensures Good(terms.enabled, Story(t.said, t.word, t.log + TextEntries(text)), terms.taken, Settled(terms.due.tries))
    ensures Balanced(r, t.log + TextEntries(text), total, seen)
  {
    hide Good;
    TextIsPaid(terms.enabled, t, terms.taken, terms.due, text);
    NothingMore(t.said);
    NothingMore(t.word);
    TextLists(t.log, text);
    NothingMore(CallsIn(t.log));
  }

  /** A round without calls: its text is the answer. */
  method CompleteRound(sink: E.TurnEventEmitter, text: string, round: nat, total: nat, config: Config, host: Host,
                       history: H.History, ghost log0: Log, ghost seen: set<string>, ghost terms: Terms)
    returns (step: Step, ghost log: Log)
    requires sink.Valid() && Balanced(sink.View(), log0, total, seen) && config == terms.config
    requires text != "" ==> sink.View().state.integrity.workStarted && LastSaid(sink.View().word) == text
    requires Recent(history.legacy, log0) && total <= config.maxToolCallsPerTurn && round < config.maxRounds
    requires Good(terms.enabled, Story(host.said, sink.View().word, log0), terms.taken, terms.due)
    requires LastRead(terms.due.tries, text, config) && |terms.due.tries| == round + 1
    requires terms.due == Due(terms.due.tries, multiset{}, if Trim(text) != "" then [text] else [], [])
    requires Tried(terms.due.tries, log0, config)
    modifies sink, sink.bus, history, host
    ensures OneWay(sink) && log0 <= log && Recent(history.legacy, log)
    ensures step != Next
    ensures RoundWent(step, Live(sink), sink.View(), host.said, log, total, seen, terms.due.tries, terms.enabled,
                      config)
  {
    hide Good, Halting, Tried, LastRead, Fulfilled, Explains, Balanced;
    log := log0;
    BalancedRests(sink.View(), log, total, seen);
    if Trim(text) == "" {
      NoProgressIsExplained(Story(host.said, sink.View().word, log), terms, text);
      Fail(sink, NoProgress, host.said, log, terms);
      return Halt(NoProgress), log;
    }
    var cancelled := CheckCancelled(sink, host, log, terms);
    if cancelled { return Halt(LoopError.Cancelled), log; }
    TextIsKept(Story(host.said, sink.View().word, log0), terms, text, sink.View(), total, seen);
    log := PushText(history, text, log);
    TriedLater(terms.due.tries, log0, log, config);
    step := PublishCompletion(sink, text, round, total, config, host, log, seen,
                              terms.(due := Settled(terms.due.tries)));
  }

  lemma CompletedIsFinished(r: E.Run, r0: E.Run, log: Log, text: string, round: nat, total: nat, seen: set<string>,
                            config: Config)
    requires Balanced(r0, log, total, seen) && Ended(r, r0, Integrity.Completed)
    requires log != [] && log[|log| - 1] == H.Assistant(text) && Trim(text) != ""
    requires total <= config.maxToolCallsPerTurn && round < config.maxRounds
    ensures Finished(r, log, Outcome(text, round + 1, total), config)
  {
    hide Trim, CallsIn, ResultsIn;
    TrailSnoc(r0.word, TurnCompleted);
  }

  /** Publishes the completion of the turn. */
  method PublishCompletion(sink: E.TurnEventEmitter, text: string, round: nat, total: nat, config: Config, host: Host,
                  ghost log: Log, ghost seen: set<string>, ghost terms: Terms)
    returns (step: Step)
    requires sink.Valid() && Balanced(sink.View(), log, total, seen) && config == terms.config
    requires sink.View().state.integrity.workStarted && LastSaid(sink.View().word) == text && Trim(text) != ""
    requires log != [] && log[|log| - 1] == H.Assistant(text)
    requires total <= config.maxToolCallsPerTurn && round < config.maxRounds
    requires Good(terms.enabled, Story(host.said, sink.View().word, log), terms.taken, terms.due)
    requires LastRead(terms.due.tries, text, config) && |terms.due.tries| == round + 1
    requires terms.due == Settled(terms.due.tries) && Tried(terms.due.tries, log, config)
    modifies sink, sink.bus
    ensures OneWay(sink) && step != Next
    ensures RoundWent(step, Live(sink), sink.View(), host.said, log, total, seen, terms.due.tries, terms.enabled,
                      config)
  {
    hide Good, Halting, Tried, LastRead, Fulfilled, Explains, Finished;
    ghost var before, t := sink.View(), Story(host.said, sink.View().word, log);
    var ok := CompleteTurn(sink);
    if ok {
      CompletedIsFinished(sink.View(), before, log, text, round, total, seen, config);
      CompletedIsFulfilled(t, terms, text, round, total);
      step := Done(Outcome(text, round + 1, total));
    } else {
      RejectionIsExplained(t, terms);
      var e := RejectEvent(sink);
      ghost var cap := sink.View().word[|t.word|..];
      CapIsAside(cap);
      StopFalls(terms.enabled, t, terms.taken, terms.due, cap, e, config);
      assert t.word + cap == sink.View().word;
      step := Halt(e);
    }
  }

  // ---------- the calls of a round ----------

  lemma FirstsAppend(a: Trail, b: Trail)
    ensures Firsts(a + b) == Firsts(a) + Firsts(b)
  {
  }

  lemma DistinctAppend(a: seq<string>, b: seq<string>, taken: set<string>)
    requires Distinct(a) && FreshIds(b, taken) && Members(a) <= taken
    ensures Distinct(a + b)
  {
  }

  /** A round that ran its calls leaves the turn balanced. */
  lemma BalancedAfter(r: E.Run, r0: E.Run, log: Log, log1: Log, log0: Log, calls: seq<PendingToolCall>, got: Trail,
                      total: nat, seen: set<string>)
    requires Balanced(r0, log0, total, seen)
    requires Listed(log1, log0, Pairs(calls))
    requires FreshIds(Ids(calls), r0.state.integrity.tools.Keys) && Members(Ids(calls)) <= seen
    requires Executed(r, r0, log, log1, calls, got)
    ensures Balanced(r, log, total + |calls|, seen)
  {
    assert Firsts(Pairs(calls)) == Ids(calls);
    FirstsAppend(CallsIn(log0), Pairs(calls));
    FirstsAppend(ResultsIn(log0), got);
    MembersAppend(Firsts(CallsIn(log0)), Ids(calls));
    DistinctAppend(Firsts(CallsIn(log0)), Ids(calls), r0.state.integrity.tools.Keys);
  }

  /** The text and the calls of a round are appended: nothing is due but the results. */
  lemma RoundIsPaid(t: Story, terms: Terms, text: string, calls: seq<PendingToolCall>)
    requires Good(terms.enabled, t, terms.taken, terms.due)
    requires terms.due == Due(terms.due.tries, multiset(Pleas(calls)), if Trim(text) != "" then [text] else [], [])
    ensures Good(terms.enabled, Story(t.said, t.word, t.log + TextEntries(text) + CallEntries(calls)), terms.taken,
                 Settled(terms.due.tries))
    ensures forall c | c in calls :: CallEntry(c) in t.log + TextEntries(text) + CallEntries(calls)
  {
    hide Good, Pleas;
    var t1 := Later(t, [], [], TextEntries(text));
    NothingMore(t.said);
    NothingMore(t.word);
    TextIsPaid(terms.enabled, t, terms.taken, terms.due, text);
    CallsArePaid(terms.enabled, t1, terms.taken, terms.due.(texts := []), calls);
    CallsHaveEntries(calls);
  }

  lemma CallsHaveEntries(calls: seq<PendingToolCall>)
    ensures forall c | c in calls :: CallEntry(c) in CallEntries(calls)
  {
    forall i | 0 <= i < |calls|
      ensures CallEntry(calls[i]) in CallEntries(calls)
    {
      assert CallEntries(calls)[i] == CallEntry(calls[i]);
    }
  }

  lemma CallsHaveRun(r: E.Run, r0: E.Run, said: seq<Exchange>, log: Log, log1: Log, log0: Log,
                     calls: seq<PendingToolCall>, got: Trail, total: nat, seen: set<string>, terms: Terms)
    requires Balanced(r0, log0, total, seen) && Listed(log1, log0, Pairs(calls))
    requires FreshIds(Ids(calls), r0.state.integrity.tools.Keys) && Members(Ids(calls)) <= seen && terms.taken <= seen
    requires Stands(None, true, r, r0, said, log, log1, calls, got, terms)
    ensures Balanced(r, log, total + |calls|, seen) && Good(terms.enabled, Story(said, r.word, log), seen, terms.due)
  {
    hide Good;
    BalancedAfter(r, r0, log, log1, log0, calls, got, total, seen);
    GoodMore(terms.enabled, Story(said, r.word, log), terms.taken + Members(Ids(calls)), seen, terms.due);
  }

  /** Appends the text and the calls of a round, then runs the calls. */
  method RunCalls(sink: E.TurnEventEmitter, calls: seq<PendingToolCall>, text: string, ghost total: nat,
                  settings: Settings, host: Host, history: H.History, ghost log0: Log, ghost seen: set<string>,
                  ghost terms: Terms)
    returns (error: Option<LoopError>, ghost log: Log)
    requires sink.Valid() && Balanced(sink.View(), log0, total, seen) && settings.toolsEnabled == terms.enabled
    requires FreshIds(Ids(calls), sink.View().state.integrity.tools.Keys) && Members(Ids(calls)) <= seen
    requires FreshIds(Ids(calls), terms.taken) && terms.taken <= seen
    requires Recent(history.legacy, log0)
    requires Good(terms.enabled, Story(host.said, sink.View().word, log0), terms.taken, terms.due)
    requires terms.due == Due(terms.due.tries, multiset(Pleas(calls)), if Trim(text) != "" then [text] else [], [])
    modifies sink, sink.bus, history, host
    ensures OneWay(sink) && log0 <= log && Recent(history.legacy, log)
    ensures error.None? ==>
      && Balanced(sink.View(), log, total + |calls|, seen)
      && Good(terms.enabled, Story(host.said, sink.View().word, log), seen, Settled(terms.due.tries))
    ensures error.Some? ==>
      Fell(error.value, Live(sink), sink.View(), host.said, log, terms.due.tries, terms.enabled, terms.config)
  {
    hide Good, Halting, Stands, Balanced, Pleas;
    BalancedRests(sink.View(), log0, total, seen);
    ghost var r0, said := sink.View(), host.said;
    RoundIsPaid(Story(said, r0.word, log0), terms, text, calls);
    log := PushRound(history, text, calls, log0);
    ghost var log1, got, settled := log, [], terms.(due := Settled(terms.due.tries));
    error, log, got := ExecuteCalls(sink, calls, settings.toolsEnabled, host, history, log, settled);
    if error.None? {
      CallsHaveRun(sink.View(), r0, host.said, log, log1, log0, calls, got, total, seen, settled);
    }
  }

  lemma Sizes<T>(all: seq<T>, a: seq<T>, b: seq<T>, c: seq<T>)
    requires multiset(all) == multiset(a) + multiset(b) + multiset(c)
    ensures |all| == |a| + |b| + |c|
  {
    assert |multiset(all)| == |multiset(a)| + |multiset(b)| + |multiset(c)|;
  }

  /** A turn that spent its calls. */
  lemma BudgetIsExplained(t: Story, terms: Terms, text: string, calls: seq<PendingToolCall>, total: nat)
    requires Good(terms.enabled, t, terms.taken, terms.due) && LastRead(terms.due.tries, text, terms.config)
    requires terms.due.pleas == multiset(Pleas(calls)) && |CallsIn(t.log)| == total
    requires total + |calls| > terms.config.maxToolCallsPerTurn
    ensures Explains(ToolCallBudgetExhausted(total + |calls|, terms.config.maxToolCallsPerTurn), t.said,
                     terms.due.tries, terms.config)
  {
    hide Lawful, Trim, TextOf, Heard, Ending, WellOrdered, Malformed, CallsOf, Pick;
    GoodIsCalm(terms.enabled, t, terms.taken, terms.due);
    CalmEndsCalmly(t.said);
    CallsAreCounted(t.log);
    Sizes(Pick(terms.due.tries, PleasIn), Pick(t.said, TakenIn), Pick(t.log, CallIn), Pleas(calls));
  }

  lemma BalancedCounts(r: E.Run, log: Log, total: nat, seen: set<string>)
    requires Balanced(r, log, total, seen)
    ensures Resting(r) && |CallsIn(log)| == total
  {
  }

  /** A round with calls to execute. */
  method ExecuteRound(sink: E.TurnEventEmitter, calls: seq<PendingToolCall>, text: string, total: nat, config: Config,
                      settings: Settings, host: Host, history: H.History, ghost log0: Log, ghost seen: set<string>,
                      ghost terms: Terms)
    returns (error: Option<LoopError>, total': nat, ghost log: Log)
    requires sink.Valid() && Balanced(sink.View(), log0, total, seen)
    requires settings.toolsEnabled == terms.enabled && config == terms.config
    requires FreshIds(Ids(calls), sink.View().state.integrity.tools.Keys) && Members(Ids(calls)) <= seen
    requires FreshIds(Ids(calls), terms.taken) && terms.taken <= seen
    requires Recent(history.legacy, log0)
    requires Good(terms.enabled, Story(host.said, sink.View().word, log0), terms.taken, terms.due)
    requires terms.due == Due(terms.due.tries, multiset(Pleas(calls)), if Trim(text) != "" then [text] else [], [])
    requires LastRead(terms.due.tries, text, config)
    modifies sink, sink.bus, history, host
    ensures OneWay(sink) && log0 <= log && Recent(history.legacy, log)
    ensures error.None? ==>
      && Balanced(sink.View(), log, total', seen) && total' <= config.maxToolCallsPerTurn
      && Good(terms.enabled, Story(host.said, sink.View().word, log), seen, Settled(terms.due.tries))
    ensures error.Some? ==>
      Fell(error.value, Live(sink), sink.View(), host.said, log, terms.due.tries, terms.enabled, config)
  {
    hide Good, Halting, Balanced, LastRead, Pleas, Explains, Fell;
    BalancedCounts(sink.View(), log0, total, seen);
    log := log0;
    total' := total + |calls|;
    if total' > config.maxToolCallsPerTurn {
      var e := ToolCallBudgetExhausted(total', config.maxToolCallsPerTurn);
      BudgetIsExplained(Story(host.said, sink.View().word, log), terms, text, calls, total);
      Fail(sink, e, host.said, log, terms);
      return Some(e), total', log;
    }
    var cancelled := CheckCancelled(sink, host, log, terms);
    if cancelled { return Some(LoopError.Cancelled), total', log; }
    error, log := RunCalls(sink, calls, text, total, settings, host, history, log, seen, terms);
  }

  lemma SpokeBalanced(r: E.Run, r0: E.Run, log: Log, total: nat, seen: set<string>, more: set<string>)
    requires Balanced(r0, log, total, seen) && Spoke(r, r0)
    ensures Balanced(r, log, total, seen + more)
  {
  }

  lemma SelectedMembers(calls: seq<PendingToolCall>, all: seq<PendingToolCall>)
    requires forall c | c in calls :: c in all
    ensures Members(Ids(calls)) <= Members(Ids(all))
  {
    forall x | x in Members(Ids(calls))
      ensures x in Members(Ids(all))
    {
      var i :| 0 <= i < |calls| && Ids(calls)[i] == x;
      assert calls[i] in calls;
      var j :| 0 <= j < |all| && all[j] == calls[i];
      assert Ids(all)[j] == x;
    }
  }

  lemma FreshWeaken(ids: seq<string>, taken: set<string>, fewer: set<string>)
    requires FreshIds(ids, taken) && fewer <= taken
    ensures FreshIds(ids, fewer)
  {
  }

  /** A round that an action ended, with no call left. */
  lemma EndedIsPaid(t: Story, terms: Terms, text: string, ending: Closing, seen: set<string>, r: E.Run, total: nat)
    requires Good(terms.enabled, t, terms.taken, terms.due) && ending.Some? && terms.taken <= seen
    requires terms.due == Due(terms.due.tries, multiset{}, if Trim(text) != "" then [text] else [], Words(ending))
    requires Balanced(r, t.log, total, seen)
    ensures var log := t.log + TextEntries(text) + UserEntries(ending.value.1);
      && Good(terms.enabled, Story(t.said, t.word, log), seen, Settled(terms.due.tries))
      && Balanced(r, log, total, seen)
  {
    hide Good;
    var t1 := Later(t, [], [], TextEntries(text));
    NothingMore(t.said);
    NothingMore(t.word);
    TextIsPaid(terms.enabled, t, terms.taken, terms.due, text);
    WordsArePaid(terms.enabled, t1, terms.taken, terms.due.(texts := []), ending);
    GoodMore(terms.enabled, Story(t.said, t.word, t.log + TextEntries(text) + UserEntries(ending.value.1)), terms.taken,
             seen, Settled(terms.due.tries));
    TextLists(t.log, text);
    UserListsNothing(t.log + TextEntries(text), ending.value.1);
    NothingMore(CallsIn(t.log));
  }

  lemma UserListsNothing(log: Log, text: string)
    ensures CallsIn(log + UserEntries(text)) == CallsIn(log) && ResultsIn(log + UserEntries(text)) == ResultsIn(log)
  {
    if Trim(text) != "" { LogSnoc(log, H.User(text)); } else { NothingMore(log); }
  }

  /** A round that is left with calls that no action took: they are given up. */
  lemma LeavingLater(r: E.Run, said: seq<Exchange>, log: Log, calls: seq<PendingToolCall>, terms: Terms, text: string)
    requires Resting(r) && FreshIds(Ids(calls), r.state.integrity.tools.Keys) && FreshIds(Ids(calls), terms.taken)
    requires Good(terms.enabled, Story(said, r.word, log), terms.taken, terms.due)
    requires terms.due.texts == if Trim(text) != "" then [text] else []
    ensures Leaving(r, said, log + TextEntries(text), calls, terms.(due := terms.due.(texts := [])))
  {
    hide Good;
    NothingMore(said);
    NothingMore(r.word);
    TextIsPaid(terms.enabled, Story(said, r.word, log), terms.taken, terms.due, text);
  }

  /** Ends a round on a terminal action. */
  method EndRound(sink: E.TurnEventEmitter, text: string, executable: seq<PendingToolCall>, ending: Closing, total: nat,
                  config: Config, host: Host, history: H.History, ghost log0: Log, ghost seen: set<string>,
                  ghost terms: Terms) returns (step: Step, ghost log: Log)
    requires sink.Valid() && Balanced(sink.View(), log0, total, seen) && ending.Some? && config == terms.config
    requires FreshIds(Ids(executable), sink.View().state.integrity.tools.Keys)
    requires FreshIds(Ids(executable), terms.taken) && terms.taken <= seen
    requires Recent(history.legacy, log0) && total <= config.maxToolCallsPerTurn
    requires Good(terms.enabled, Story(host.said, sink.View().word, log0), terms.taken, terms.due)
    requires terms.due == Due(terms.due.tries, multiset(Pleas(executable)), if Trim(text) != "" then [text] else [],
                              Words(ending))
    modifies sink, sink.bus, history, host
    ensures OneWay(sink) && log0 <= log && Recent(history.legacy, log)
    ensures RoundWent(step, Live(sink), sink.View(), host.said, log, total, seen, terms.due.tries, terms.enabled,
                      config)
  {
    hide Good, Halting, Balanced, Leaving, Fell, Pleas;
    ghost var r0, said := sink.View(), host.said;
    BalancedRests(r0, log0, total, seen);
    LeavingLater(r0, said, log0, executable, terms, text);
    if executable == [] {
      NoPleas(executable);
      EndedIsPaid(Story(said, r0.word, log0), terms, text, ending, seen, r0, total);
    }
    log := PushText(history, text, log0);
    var error;
    error, log := AbandonCalls(sink, executable, ending.value.0, ending.value.1, host, history, log,
                               terms.(due := terms.due.(texts := [])));
    step := if error.Some? then Halt(error.value) else Next;
  }

  lemma NoPleas(calls: seq<PendingToolCall>)
    requires calls == []
    ensures multiset(Pleas(calls)) == multiset{}
  {
  }

  /** What is known when the actions have had their say. */
  lemma OfferingIs(t: Story, terms: Terms, taken: set<string>, calls: seq<PendingToolCall>,
                   left: seq<PendingToolCall>, ending: Closing)
    requires Offering(t, terms, taken, calls, left, ending)
    ensures FreshIds(Ids(left), taken) && terms.taken <= taken <= terms.taken + Members(Ids(calls))
    ensures Good(terms.enabled, t, taken, DueOf(terms.due, left, ending))
  {
    hide Good;
  }

  /** What a round does once its text and calls are known. */
  method ActOnRound(sink: E.TurnEventEmitter, text: string, calls: seq<PendingToolCall>, round: nat, total: nat,
                    config: Config, settings: Settings, host: Host, history: H.History, ghost log0: Log,
                    ghost seen: set<string>, ghost terms: Terms)
    returns (step: Step, total': nat, ghost log: Log)
    requires sink.Valid() && Balanced(sink.View(), log0, total, seen)
    requires settings.toolsEnabled == terms.enabled && config == terms.config
    requires FreshIds(Ids(calls), terms.taken) && seen == terms.taken + Members(Ids(calls))
    requires sink.View().state.integrity.tools.Keys <= terms.taken
    requires text != "" ==> sink.View().state.integrity.workStarted && LastSaid(sink.View().word) == text
    requires Recent(history.legacy, log0) && total <= config.maxToolCallsPerTurn && round < config.maxRounds
    requires Good(terms.enabled, Story(host.said, sink.View().word, log0), terms.taken, terms.due)
    requires terms.due == Due(terms.due.tries, multiset(Pleas(calls)), if Trim(text) != "" then [text] else [], [])
    requires LastRead(terms.due.tries, text, config) && |terms.due.tries| == round + 1
    requires Tried(terms.due.tries, log0, config)
    modifies sink, sink.bus, history, host
    ensures OneWay(sink) && log0 <= log && Recent(history.legacy, log)
    ensures RoundWent(step, Live(sink), sink.View(), host.said, log, total', seen, terms.due.tries, terms.enabled,
                      config)
  {
    hide Good, Halting, Balanced, LastRead, Tried, Offering, Fell, Pleas, Fulfilled, Finished;
    total', log := total, log0;
    BalancedRests(sink.View(), log0, total, seen);
    var error, executable, ending;
    ghost var consumed, taken;
    error, executable, ending, consumed, taken := AskActions(sink, calls, host, log0, terms);
    if error.Some? { return Halt(error.value), total', log; }
    OfferingIs(Story(host.said, sink.View().word, log0), terms, taken, calls, executable, ending);
    FreshWeaken(Ids(executable), taken, sink.View().state.integrity.tools.Keys);
    SelectedMembers(executable, calls);
    ghost var left := Terms(terms.enabled, taken, DueOf(terms.due, executable, ending), config);
    if ending.Some? {
      step, log := EndRound(sink, text, executable, ending, total, config, host, history, log, seen, left);
    } else if executable == [] {
      NoPleas(executable);
      step, log := CompleteRound(sink, text, round, total, config, host, history, log, seen, left);
    } else {
      error, total', log := ExecuteRound(sink, executable, text, total, config, settings, host, history, log, seen,
                                         left);
      step := if error.Some? then Halt(error.value) else Next;
    }
  }

  // ---------- the rounds ----------

  /** A refusal of the model that ends the turn: a cancellation, or an error that is not tried again. */
  lemma RefusalFalls(t: Story, terms: Terms, tries: seq<Exchange>, open: Exchange, cancelled: Option<bool>,
                     cap: seq<EventBody>)
    requires Good(terms.enabled, t, terms.taken, Settled(tries)) && open.StreamOpened? && open.stream.Err? && IsCap(cap)
    requires cancelled.None? <==> open.stream.error.LlmCancelled?
    requires forall k | 0 <= k < |tries| :: tries[k].StreamOpened?
    requires cancelled == Some(false) ==> !Retriable(tries + [open], |tries|)
    ensures Halting(terms.enabled, Story(t.said + ([open] + Checked(cancelled)), t.word + cap, t.log),
                    if cancelled == Some(false) then LoopError.Llm(open.stream.error) else LoopError.Cancelled,
                    tries + [open], terms.config)
  {
    hide Good, Halting, Explains;
    var x := [open] + Checked(cancelled);
    var e := if cancelled == Some(false) then LoopError.Llm(open.stream.error) else LoopError.Cancelled;
    NothingMore([open]);
    NothingMore(t.log);
    GoodIsCalm(terms.enabled, t, terms.taken, Settled(tries));
    RefusalIsExplained(t.said, tries, open, cancelled, terms.config);
    CapIsPartly(open, cap);
    assert x == [open] || x == [open, CancelAsked(cancelled.value)];
    ReadHalts(terms.enabled, t, terms.taken, tries, open, x, cap, e, terms.config);
  }

  lemma CapIsPartly(open: Exchange, cap: seq<EventBody>)
    requires IsCap(cap)
    ensures Aside(cap, EventOwner) && TextShown(cap) <= SpokenIn(open) && ThoughtShown(cap) <= ReasonedIn(open)
  {
    CapIsAside(cap);
    OpenersShowNothing(cap);
  }

  lemma RefusalIsExplained(said: seq<Exchange>, tries: seq<Exchange>, open: Exchange, cancelled: Option<bool>,
                           config: Config)
    requires Calm(said) && (forall k | 0 <= k < |tries| :: tries[k].StreamOpened?)
    requires open.StreamOpened? && open.stream.Err? && (cancelled.None? <==> open.stream.error.LlmCancelled?)
    requires cancelled == Some(false) ==> !Retriable(tries + [open], |tries|)
    ensures Explains(if cancelled == Some(false) then LoopError.Llm(open.stream.error) else LoopError.Cancelled,
                     said + ([open] + Checked(cancelled)), tries + [open], config)
  {
    var x := [open] + Checked(cancelled);
    assert x[..|x| - 1] == if cancelled.None? then [] else [open];
    CalmSoFarAppend(said, x);
    assert (said + x)[|said + x| - 1] == x[|x| - 1];
  }

  /** Ends the turn on the refusal of a stream. */
  method RefuseStream(sink: E.TurnEventEmitter, e: LoopError, ghost check: Option<bool>, ghost t: Story,
                      ghost terms: Terms, ghost tries: seq<Exchange>, ghost open: Exchange)
    requires sink.Valid() && Resting(sink.View()) && sink.View().word == t.word
    requires Good(terms.enabled, t, terms.taken, Settled(tries)) && open.StreamOpened? && open.stream.Err?
    requires forall k | 0 <= k < |tries| :: tries[k].StreamOpened?
    requires check.None? <==> open.stream.error.LlmCancelled?
    requires check == Some(false) ==> !Retriable(tries + [open], |tries|)
    requires e == if check == Some(false) then LoopError.Llm(open.stream.error) else LoopError.Cancelled
    modifies sink, sink.bus
    ensures OneWay(sink)
    ensures Fell(e, Live(sink), sink.View(), t.said + ([open] + Checked(check)), t.log, tries + [open], terms.enabled,
                 terms.config)
  {
    hide Good, Halting, Retriable;
    Stop(sink, e);
    ghost var cap := sink.View().word[|t.word|..];
    RefusalFalls(t, terms, tries, open, check, cap);
    assert t.word + cap == sink.View().word;
  }

  /** The provider refused to open a stream: one compaction and retry if the context was too large. */
  method StreamRefused(sink: E.TurnEventEmitter, e: LlmError, retried: bool, host: Host, history: H.History,
                       ghost t: Story, ghost terms: Terms, ghost tries: seq<Exchange>, ghost open: Exchange)
    returns (error: Option<LoopError>)
    requires sink.Valid() && Resting(sink.View()) && Recent(history.legacy, t.log)
    requires Good(terms.enabled, t, terms.taken, Settled(tries)) && open.StreamOpened? && open.stream == Err(e)
    requires host.said == t.said + [open] && sink.View().word == t.word
    requires (forall k | 0 <= k < |tries| :: tries[k].StreamOpened?)
    requires retried <==> tries != [] && tries[|tries| - 1].stream.Err?
    modifies sink, sink.bus, history, host
    ensures OneWay(sink) && Recent(history.legacy, t.log)
    ensures error.None? ==>
      && sink.View() == old(sink.View()) && Retriable(tries + [open], |tries|)
      && C.Small(history.legacy, EMERGENCY_COMPACTION_CHARS, IsUser, TextSize)
      && Good(terms.enabled, Story(host.said, sink.View().word, t.log), terms.taken, Settled(tries + [open]))
    ensures error.Some? ==>
      Fell(error.value, Live(sink), sink.View(), host.said, t.log, tries + [open], terms.enabled, terms.config)
  {
    hide Good, Fell;
    var cancelled := e.LlmCancelled?;
    ghost var check: Option<bool> := None;
    if !cancelled {
      cancelled := host.IsCancelled();
      check := Some(cancelled);
    }
    NothingMore([open]);
    Associative(t.said, [open], Checked(check));
    if cancelled {
      RefuseStream(sink, LoopError.Cancelled, check, t, terms, tries, open);
      return Some(LoopError.Cancelled);
    }
    if e.contextRelated && !retried {
      RetryLater(history, t, terms, tries, open);
      assert [open] + [CancelAsked(false)] == [open, CancelAsked(false)];
      return None;
    }
    RefuseStream(sink, LoopError.Llm(e), check, t, terms, tries, open);
    error := Some(LoopError.Llm(e));
  }

  /** Makes the context smaller. */
  method RetryLater(history: H.History, ghost t: Story, ghost terms: Terms, ghost tries: seq<Exchange>,
                    ghost open: Exchange)
    requires Recent(history.legacy, t.log)
    requires Good(terms.enabled, t, terms.taken, Settled(tries)) && open.StreamOpened? && open.stream.Err?
    requires open.stream.error.LlmFailure?
    modifies history
    ensures Recent(history.legacy, t.log) && C.Small(history.legacy, EMERGENCY_COMPACTION_CHARS, IsUser, TextSize)
    ensures Good(terms.enabled, Story(t.said + [open, CancelAsked(false)], t.word, t.log), terms.taken,
                 Settled(tries + [open]))
  {
    hide Good, C.Small, C.CompactsTo;
    ghost var legacy := history.legacy;
    Compact(history, EMERGENCY_COMPACTION_CHARS, t.log);
    C.CompactedIsSmall(legacy, EMERGENCY_COMPACTION_CHARS, IsUser, TextSize, history.legacy);
    GoodRefused(terms.enabled, t, terms.taken, tries, open);
    NothingMore(t.log);
    NothingMore(t.word);
  }

  lemma ReadIs(r: E.Run, r0: E.Run, said: seq<Exchange>, log: Log, text: string, calls: seq<PendingToolCall>,
               terms: Terms, tries: seq<Exchange>, open: Exchange, total: nat)
    requires Read(r, r0, said, log, text, calls, terms, tries, open) && Balanced(r0, log, total, terms.taken)
    ensures FreshIds(Ids(calls), terms.taken) && LastRead(tries + [open], text, terms.config)
    ensures text != "" ==> r.state.integrity.workStarted && LastSaid(r.word) == text
    ensures Good(terms.enabled, Story(said, r.word, log), terms.taken, DueAfter(tries, open))
    ensures DueAfter(tries, open)
         == Due(tries + [open], multiset(Pleas(calls)), if Trim(text) != "" then [text] else [], [])
    ensures Balanced(r, log, total, terms.taken + Members(Ids(calls))) && r.state.integrity.tools.Keys <= terms.taken
  {
    hide Good, Trim, TextOf, HeardIn, Pleas, CallsOf, Proper, Paired, LastSaid;
    SpokeBalanced(r, r0, log, total, terms.taken, Members(Ids(calls)));
  }

  /** One round over an open stream. */
  method PlayRound(sink: E.TurnEventEmitter, items: seq<StreamItem>, round: nat, config: Config, settings: Settings,
                   host: Host, history: H.History, seen: set<string>, total: nat, ghost t: Story,
                   ghost tries: seq<Exchange>, ghost open: Exchange)
    returns (step: Step, seen': set<string>, total': nat, ghost log: Log)
    requires sink.Valid() && Balanced(sink.View(), t.log, total, seen)
    requires Recent(history.legacy, t.log) && total <= config.maxToolCallsPerTurn && round < config.maxRounds
    requires Good(settings.toolsEnabled, t, seen, Settled(tries)) && Opens(open, items)
    requires host.said == t.said + [open] && sink.View().word == t.word
    requires |tries| == round && Tried(tries + [open], t.log, config)
    modifies sink, sink.bus, history, host
    ensures OneWay(sink) && t.log <= log && Recent(history.legacy, log)
    ensures step.Next? ==> Proper(open, config)
    ensures RoundWent(step, Live(sink), sink.View(), host.said, log, total', seen', tries + [open],
                      settings.toolsEnabled, config)
  {
    hide Good, Halting, Balanced, Tried, Read, Fell, Finished, Fulfilled, Proper, LastRead;
    total', log := total, t.log;
    BalancedRests(sink.View(), log, total, seen);
    ghost var r0, terms := sink.View(), Terms(settings.toolsEnabled, seen, Settled(tries), config);
    var error, text, calls;
    error, text, calls, seen' := ReadRound(items, round, config, seen, sink, host, t, terms, tries, open);
    if error.Some? { return Halt(error.value), seen', total', log; }
    ReadIs(sink.View(), r0, host.said, t.log, text, calls, terms, tries, open, total);
    ReadIsProper(sink.View(), r0, host.said, t.log, text, calls, terms, tries, open);
    step, total', log := ActOnRound(sink, text, calls, round, total, config, settings, host, history, log, seen',
                                    terms.(due := DueAfter(tries, open)));
  }

  lemma ReadIsProper(r: E.Run, r0: E.Run, said: seq<Exchange>, log: Log, text: string, calls: seq<PendingToolCall>,
                     terms: Terms, tries: seq<Exchange>, open: Exchange)
    requires Read(r, r0, said, log, text, calls, terms, tries, open)
    ensures Proper(open, terms.config)
  {
    hide Proper, Good;
  }

  /** The openings so far are in order, and so is the next one. */
  ghost predicate Asking(tries: seq<Exchange>, legacy: seq<H.Message>, log: Log, round: nat, retried: bool,
                         config: Config) {
    && Tried(tries, log, config) && |tries| == round && MayAsk(tries, round, legacy, config)
    && (retried <==> tries != [] && tries[|tries| - 1].stream.Err?)
  }

  /** The compaction before a stream is opened undoes nothing that a retry relies on. */
  lemma AskingCompacted(tries: seq<Exchange>, legacy: seq<H.Message>, compacted: seq<H.Message>, log: Log, round: nat,
                        retried: bool, config: Config)
    requires Asking(tries, legacy, log, round, retried, config)
    requires C.CompactsTo(legacy, COMPACTION_THRESHOLD_CHARS, IsUser, TextSize, compacted)
    ensures Asking(tries, compacted, log, round, retried, config)
    ensures C.Small(compacted, COMPACTION_THRESHOLD_CHARS, IsUser, TextSize)
  {
    hide C.CompactsTo, Proper, Tried;
    C.CompactedIsSmall(legacy, COMPACTION_THRESHOLD_CHARS, IsUser, TextSize, compacted);
    TriedAre(tries, log, config);
    if round > 0 && !Proper(tries[round - 1], config) {
      C.SmallStays(legacy, COMPACTION_THRESHOLD_CHARS, IsUser, TextSize, compacted);
    }
  }

  lemma TriedAre(tries: seq<Exchange>, log: Log, config: Config)
    requires Tried(tries, log, config)
    ensures forall k | 0 <= k < |tries| :: tries[k].StreamOpened?
  {
  }

  lemma AskedInOrder(tries: seq<Exchange>, open: Exchange, t: Story, r: E.Run, round: nat, retried: bool, total: nat,
                     seen: set<string>, enabled: bool, config: Config)
    requires open.StreamOpened? && open.log == t.log && Asking(tries, open.messages, t.log, round, retried, config)
    requires C.Small(open.messages, COMPACTION_THRESHOLD_CHARS, IsUser, TextSize) && Recent(open.messages, t.log)
    requires round < config.maxRounds
    requires Good(enabled, t, seen, Settled(tries)) && Balanced(r, t.log, total, seen)
    ensures Tried(tries + [open], t.log, config)
  {
    hide Lawful, Tried, MayAsk, Recent, C.Small;
    NothingMore(Pick(t.log, AssistantIn));
    TriedAre(tries, t.log, config);
    TriedSnoc(tries, open, t.log, config);
  }

  /** A round that went well, or was refused once, is followed by another. */
  lemma AskingNext(tries: seq<Exchange>, open: Exchange, legacy: seq<H.Message>, log: Log, log': Log, round: nat,
                   config: Config)
    requires Tried(tries + [open], log, config) && |tries| == round && log <= log' && open.StreamOpened?
    requires if open.stream.Ok? then Proper(open, config)
             else Retriable(tries + [open], round) && C.Small(legacy, EMERGENCY_COMPACTION_CHARS, IsUser, TextSize)
    ensures Asking(tries + [open], legacy, log', round + 1, open.stream.Err?, config)
  {
    hide Tried, C.Small;
    TriedAre(tries + [open], log, config);
    TriedLater(tries + [open], log, log', config);
    assert (tries + [open])[round] == open;
  }

  /** A turn between two rounds, or after the last one. */
  ghost predicate TurnWent(step: Step, live: bool, r: E.Run, said: seq<Exchange>, log: Log, total: nat,
                           seen: set<string>, tries: seq<Exchange>, enabled: bool, config: Config) {
    RoundWent(step, live, r, said, log, total, seen, tries, enabled, config) && Tried(tries, log, config)
  }

  method RunRound(sink: E.TurnEventEmitter, round: nat, config: Config, settings: Settings, host: Host,
                  history: H.History, seen: set<string>, total: nat, retried: bool, ghost log0: Log,
                  ghost tries: seq<Exchange>)
    returns (step: Step, seen': set<string>, total': nat, retried': bool, ghost log: Log, ghost tries': seq<Exchange>)
    requires sink.Valid() && Balanced(sink.View(), log0, total, seen)
    requires Recent(history.legacy, log0) && total <= config.maxToolCallsPerTurn && round < config.maxRounds
    requires Good(settings.toolsEnabled, Story(host.said, sink.View().word, log0), seen, Settled(tries))
    requires Asking(tries, history.legacy, log0, round, retried, config)
    modifies sink, sink.bus, history, host
    ensures OneWay(sink) && log0 <= log && Recent(history.legacy, log)
    ensures TurnWent(step, Live(sink), sink.View(), host.said, log, total', seen', tries', settings.toolsEnabled,
                     config)
    ensures step.Next? ==> Asking(tries', history.legacy, log, round + 1, retried', config)
  {
    hide Good, Halting, Balanced, Tried, Fell, Finished, Fulfilled, Proper, MayAsk, Asking;
    seen', total', retried', log, tries' := seen, total, retried, log0, tries;
    BalancedRests(sink.View(), log, total, seen);
    AskingTried(tries, history.legacy, log, round, retried, config);
    ghost var terms := Terms(settings.toolsEnabled, seen, Settled(tries), config);
    var cancelled := CheckCancelled(sink, host, log, terms);
    if cancelled { return Halt(LoopError.Cancelled), seen', total', retried', log, tries'; }
    ghost var legacy := history.legacy;
    Compact(history, COMPACTION_THRESHOLD_CHARS, log);
    AskingCompacted(tries, legacy, history.legacy, log, round, retried, config);
    step, seen', total', retried', log, tries' :=
      AskModel(sink, round, config, settings, host, history, seen, total, retried, log, tries);
  }

  lemma AskingTried(tries: seq<Exchange>, legacy: seq<H.Message>, log: Log, round: nat, retried: bool, config: Config)
    requires Asking(tries, legacy, log, round, retried, config)
    ensures Tried(tries, log, config) && |tries| == round
    ensures forall k | 0 <= k < |tries| :: tries[k].StreamOpened?
    ensures retried <==> tries != [] && tries[|tries| - 1].stream.Err?
  {
  }

  /** Opens a stream, and plays the round or answers the refusal. */
  method AskModel(sink: E.TurnEventEmitter, round: nat, config: Config, settings: Settings, host: Host,
                  history: H.History, seen: set<string>, total: nat, retried: bool, ghost log0: Log,
                  ghost tries: seq<Exchange>)
    returns (step: Step, seen': set<string>, total': nat, retried': bool, ghost log: Log, ghost tries': seq<Exchange>)
    requires sink.Valid() && Balanced(sink.View(), log0, total, seen)
    requires Recent(history.legacy, log0) && total <= config.maxToolCallsPerTurn && round < config.maxRounds
    requires Good(settings.toolsEnabled, Story(host.said, sink.View().word, log0), seen, Settled(tries))
    requires Asking(tries, history.legacy, log0, round, retried, config)
    requires C.Small(history.legacy, COMPACTION_THRESHOLD_CHARS, IsUser, TextSize)
    modifies sink, sink.bus, history, host
    ensures OneWay(sink) && log0 <= log && Recent(history.legacy, log)
    ensures TurnWent(step, Live(sink), sink.View(), host.said, log, total', seen', tries', settings.toolsEnabled,
                     config)
    ensures step.Next? ==> Asking(tries', history.legacy, log, round + 1, retried', config)
  {
    hide Good, Halting, Balanced, Tried, Fell, Finished, Fulfilled, Proper, MayAsk, Asking, C.Small, Retriable;
    seen', total', log := seen, total, log0;
    BalancedRests(sink.View(), log, total, seen);
    AskingTried(tries, history.legacy, log, round, retried, config);
    ghost var t := Story(host.said, sink.View().word, log);
    var stream := host.OpenStream(history.legacy, log);
    ghost var open := StreamOpened(history.legacy, log, stream);
    tries' := tries + [open];
    AskedInOrder(tries, open, t, sink.View(), round, retried, total, seen, settings.toolsEnabled, config);
    match stream {
      case Err(e) =>
        ghost var terms := Terms(settings.toolsEnabled, seen, Settled(tries), config);
        var error := StreamRefused(sink, e, retried, host, history, t, terms, tries, open);
        step := if error.Some? then Halt(error.value) else Next;
        retried' := true;
      case Ok(items) =>
        retried' := false;
        step, seen', total', log := PlayRound(sink, items, round, config, settings, host, history, seen, total, t,
                                              tries, open);
    }
    TriedLater(tries', log0, log, config);
    if step.Next? { AskingNext(tries, open, history.legacy, log0, log, round, config); }
  }

  // ---------- the whole turn ----------

  /** How a run of a turn that has not begun ends. It is refused at once if nobody listens. */
  ghost predicate RunWent(result: Result<Outcome, LoopError>, live: bool, r: E.Run, r0: E.Run, log: Log,
                          config: Config, settings: Settings, cancelledAtEntry: bool) {
    if !settings.Valid() then result == Err(InvalidSession) && r == r0
    else if cancelledAtEntry then result == Err(LoopError.Cancelled) && r == r0
    else match result
      case Ok(outcome) => Finished(r, log, outcome, config)
      case Err(e) => Broke(live, r, e) || (e.SemanticEventRejected? && r == r0 && !live)
  }

  /** What the story of a turn says about its result; nothing was asked if it was refused at once. */
  ghost predicate Told(result: Result<Outcome, LoopError>, enabled: bool, t: Story, config: Config) {
    match result
    case Ok(outcome) => Fulfilled(enabled, t, outcome, config)
    case Err(e) =>
      || (t.said == [] && t.log == [])
      || (Halting(enabled, t, e, Pick(t.said, OpeningIn), config) && Tried(Pick(t.said, OpeningIn), t.log, config))
  }

  lemma StartedIsBalanced(r: E.Run, r0: E.Run)
    requires E.Sound(r0) && r0.state.integrity.phase.NotStarted?
    requires r.word == r0.word + [Events.TurnStarted]
    requires r.state.bindings == r0.state.bindings && r.state.seen == r0.state.seen
    requires r.state.integrity == r0.state.integrity.(phase := Integrity.Active)
    ensures Balanced(r, [], 0, {})
  {
  }

  lemma StartedIsGood(enabled: bool, config: Config, legacy: seq<H.Message>)
    ensures Good(enabled, Story([], [Events.TurnStarted], []), {}, Settled([]))
    ensures Asking([], legacy, [], 0, false, config)
  {
    forall id
      ensures LawfulAt(enabled, Story([], [Events.TurnStarted], []), {}, id)
    {
      AsideUntouched([Events.TurnStarted], EventOwner, id);
    }
    OpenersShowNothing([Events.TurnStarted]);
  }

  /** `turn_started` at the beginning of a run. */
  method Begin(sink: E.TurnEventEmitter) returns (ok: bool)
    requires sink.Valid() && E.Sound(sink.View())
    modifies sink, sink.bus
    ensures OneWay(sink)
    ensures if ok then old(sink.integrity.phase.NotStarted?) && Live(sink)
                       && Balanced(sink.View(), [], 0, {}) && sink.View().word == [Events.TurnStarted]
            else sink.View() == old(sink.View()) && (Live(sink) ==> !sink.integrity.phase.NotStarted?)
  {
    ghost var before := sink.View();
    Wait(sink);
    ok := sink.TurnStarted();
    if ok { StartedIsBalanced(sink.View(), before); }
  }

  /**
   * One turn, whatever the model, the tools, the permissions and the cancellation answer and whenever the client
   * leaves. A completed turn pairs every call with one result in the history and in the word. While the client
   * listens, a turn that began ends with the terminal event that fits the result, and an event is rejected exactly when
   * a terminal action leaves calls behind. If the client leaves before the end, the run returns an error. The
   * conversation with the host, the word and the appended entries fit each other and the result.
   */
  method Run(sink: E.TurnEventEmitter, config: Config, settings: Settings, host: Host, history: H.History,
             cancelledAtEntry: bool)
    returns (result: Result<Outcome, LoopError>, ghost log: Log)
    requires sink.Valid() && E.Sound(sink.View()) && config.Valid() && host.said == []
    modifies sink, sink.bus, history, host
    ensures OneWay(sink) && Recent(history.legacy, log)
    ensures if old(sink.integrity.phase.NotStarted?) then
              RunWent(result, Live(sink), sink.View(), old(sink.View()), log, config, settings, cancelledAtEntry)
            else result.Err? && !sink.integrity.phase.NotStarted?
    ensures old(sink.integrity.phase.Terminal?) ==> sink.View() == old(sink.View())
    ensures Told(result, settings.toolsEnabled, Story(host.said, sink.View().word, log), config)
  {
    hide Fulfilled, Halting, Tried, Finished, Pick;
    log := [];
    assert HistoryRecovery.LegacyOf(log) == [];
    if !settings.Valid() { return Err(InvalidSession), log; }
    if cancelledAtEntry {
      var _ := EndTurn(sink, Integrity.Cancelled);
      return Err(LoopError.Cancelled), log;
    }
    var begun := Begin(sink);
    if !begun { return Err(LoopError.SemanticEventRejected), log; }
    result, log := RunRounds(sink, config, settings, host, history);
  }

  lemma RoundsAreExplained(t: Story, enabled: bool, seen: set<string>, tries: seq<Exchange>, config: Config)
    requires Good(enabled, t, seen, Settled(tries)) && |tries| == config.maxRounds
    ensures Explains(MaxRounds(config.maxRounds), t.said, tries, config)
  {
    hide Good, Pick;
    GoodIsCalm(enabled, t, seen, Settled(tries));
    CalmEndsCalmly(t.said);
  }

  lemma FellIsTold(e: LoopError, live: bool, r: E.Run, said: seq<Exchange>, log: Log, tries: seq<Exchange>,
                   enabled: bool, config: Config)
    requires Fell(e, live, r, said, log, tries, enabled, config) && Tried(tries, log, config)
    ensures Broke(live, r, e) && Told(Err(e), enabled, Story(said, r.word, log), config)
  {
    hide Tried, Explains, Obeys, Recorded;
  }

  method RunRounds(sink: E.TurnEventEmitter, config: Config, settings: Settings, host: Host, history: H.History)
    returns (result: Result<Outcome, LoopError>, ghost log: Log)
    requires sink.Valid() && Balanced(sink.View(), [], 0, {}) && Recent(history.legacy, [])
    requires host.said == [] && sink.View().word == [Events.TurnStarted]
    modifies sink, sink.bus, history, host
    ensures OneWay(sink) && Recent(history.legacy, log)
    ensures match result
      case Ok(outcome) => Finished(sink.View(), log, outcome, config)
      case Err(e) => Broke(Live(sink), sink.View(), e)
    ensures Told(result, settings.toolsEnabled, Story(host.said, sink.View().word, log), config)
  {
    hide Good, Halting, Balanced, Tried, Fell, Broke, Finished, Fulfilled, Asking, Explains;
    log := [];
    var seen: set<string> := {};
    var total: nat := 0;
    var retried := false;
    ghost var tries := [];
    StartedIsGood(settings.toolsEnabled, config, history.legacy);
    for round := 0 to config.maxRounds
      invariant OneWay(sink) && Recent(history.legacy, log)
      invariant Balanced(sink.View(), log, total, seen) && total <= config.maxToolCallsPerTurn
      invariant Good(settings.toolsEnabled, Story(host.said, sink.View().word, log), seen, Settled(tries))
      invariant Asking(tries, history.legacy, log, round, retried, config)
    {
      var step;
      step, seen, total, retried, log, tries :=
        RunRound(sink, round, config, settings, host, history, seen, total, retried, log, tries);
      match step {
        case Next =>
        case Done(outcome) => return Ok(outcome), log;
        case Halt(e) =>
          FellIsTold(e, Live(sink), sink.View(), host.said, log, tries, settings.toolsEnabled, config);
          return Err(e), log;
      }
    }
    BalancedRests(sink.View(), log, total, seen);
    AskingTried(tries, history.legacy, log, config.maxRounds, retried, config);
    RoundsAreExplained(Story(host.said, sink.View().word, log), settings.toolsEnabled, seen, tries, config);
    Fail(sink, MaxRounds(config.maxRounds), host.said, log, Terms(settings.toolsEnabled, seen, Settled(tries), config));
    FellIsTold(MaxRounds(config.maxRounds), Live(sink), sink.View(), host.said, log, tries, settings.toolsEnabled,
               config);
    result := Err(MaxRounds(config.maxRounds));
  }
}
