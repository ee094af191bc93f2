/**
 * Runs one acquired turn to its end: configuration, cancellation, the loop, the terminal event, and the commit to the
 * session store, which other callers use meanwhile.
 */
module TurnService {
  import opened Prelude
  import Events
  import Integrity
  import E = Emitter
  import C = Compaction
  import H = History
  import HistoryRecovery
  import S = Store
  import TurnSteps
  import opened ModelProjection
  import opened Hosts
  import opened Conduct
  import opened Ledger
  import opened Calls
  import opened AgentLoop

  datatype ServiceError = Agent(error: LoopError) | Persistence | AgentAndPersistence(error: LoopError)

  /**
   * The turn as the store handed it out, the time and the fate of its commit, and what other callers do with the store
   * until then and between the commit and the reading back. The loop itself does not use the store.
   */
  datatype Held = Held(turn: S.Turn, session: S.Session, now: string, fault: S.WriteFault,
                       during: seq<S.Step>, later: seq<S.Step>)

  /** The session that the turn commits. */
  function Final(held: Held, history: H.HistoryState): S.Session {
    held.session.(history := history)
  }

  /** The world when the turn is about to end. */
  ghost function Meanwhile(w: S.World, held: Held): S.World {
    S.Play(w, held.during)
  }

  /** The world after the turn has ended. */
  ghost function Ended(w: S.World, held: Held, history: H.HistoryState): S.World {
    S.Play(w, held.during + [S.DoEnd(held.turn, Final(held, history), held.now, held.fault.Whole?)])
  }

  lemma EndedIsLast(w: S.World, held: Held, history: H.HistoryState)
    ensures Ended(w, held, history)
         == S.After(Meanwhile(w, held), S.DoEnd(held.turn, Final(held, history), held.now, held.fault.Whole?))
  {
    var end := S.DoEnd(held.turn, Final(held, history), held.now, held.fault.Whole?);
    var steps := held.during + [end];
    S.PlaySnoc(w, steps, |held.during|);
    assert steps[..|held.during|] == held.during && steps[..|held.during| + 1] == steps;
  }

  /** The turn is still the live one when it ends, and its file can be written. */
  ghost predicate Commits(w: S.World, held: Held) {
    && S.IsLive(Meanwhile(w, held).store, held.turn)
    && held.fault.Whole?
  }

  /** What `get` finds after the commit. */
  ghost function Found(w: S.World, held: Held): (S.State, Option<S.Session>) {
    S.Get(S.Play(w, held.later).store, held.turn.id)
  }

  /** `end_turn` of the store: whether the session was persisted. */
  method Finish(store: S.Store, held: Held, history: H.HistoryState, ghost w: S.World) returns (persisted: bool)
    requires store.View() == w.store
    modifies store
    ensures store.View() == Ended(w, held, history).store && persisted == Commits(w, held)
  {
    EndedIsLast(w, held, history);
    S.PerformAll(store, held.during, w);
    var answer := store.End(held.turn.id, Final(held, history), held.turn.generation, held.now, held.fault);
    persisted := answer.Committed?;
  }

  /** `get` of the store after the commit. */
  method ReadBack(store: S.Store, held: Held, ghost w: S.World) returns (session: Option<S.Session>)
    requires store.View() == w.store
    modifies store
    ensures (store.View(), session) == Found(w, held)
  {
    S.PerformAll(store, held.later, w);
    session := store.GetSession(held.turn.id);
  }

  function Failure(e: LoopError, persisted: bool): ServiceError {
    if persisted then Agent(e) else AgentAndPersistence(e)
  }

  /** A configuration error: the turn is started if it can be, and fails. */
  method FailAtOnce(sink: E.TurnEventEmitter)
    requires sink.Valid() && E.Sound(sink.View())
    modifies sink, sink.bus
    ensures OneWay(sink)
    ensures old(sink.integrity.phase.Terminal?) ==> sink.View() == old(sink.View())
    ensures Live(sink) ==> sink.integrity.phase.Terminal?
    ensures old(sink.integrity.phase.NotStarted?) && sink.integrity.phase.Terminal? ==>
      sink.View().word == [Events.TurnStarted, Events.TurnFailed]
    ensures sink.integrity.phase.NotStarted? ==> sink.View() == old(sink.View())
  {
    if !sink.IsTerminal() {
      var _ := Begin(sink);
      var _ := TurnSteps.EndTurn(sink, Integrity.Failed);
    }
  }

  /** A turn cancelled before it runs is started and cancelled; a turn that had begun is left alone. */
  method CancelAtOnce(sink: E.TurnEventEmitter) returns (ok: bool)
    requires sink.Valid() && E.Sound(sink.View())
    modifies sink, sink.bus
    ensures OneWay(sink) && ok == sink.integrity.phase.Terminal?
    ensures old(!sink.integrity.phase.NotStarted?) ==> sink.View() == old(sink.View())
    ensures old(sink.integrity.phase.NotStarted?) && Live(sink) ==> ok
    ensures old(sink.integrity.phase.NotStarted?) && ok ==>
      sink.View().word == [Events.TurnStarted, Events.TurnCancelled]
    ensures sink.integrity.phase.NotStarted? ==> sink.View() == old(sink.View())
  {
    ok := sink.IsTerminal();
    if !ok {
      ok := Begin(sink);
      if ok { ok := TurnSteps.EndTurn(sink, Integrity.Cancelled); }
    }
  }

  /** The terminal event of an error of the loop, unless the turn has one. A turn that never began refuses it. */
  method Terminalize(sink: E.TurnEventEmitter, e: LoopError)
    requires sink.Valid()
    modifies sink, sink.bus
    ensures OneWay(sink)
    ensures if old(sink.integrity.phase).Active? && sink.integrity.phase.Terminal? then
              sink.View().word == old(sink.View().word) + [EndingOf(e)]
            else sink.View() == old(sink.View())
    ensures Live(sink) ==> !sink.integrity.phase.Active?
  {
    if !sink.IsTerminal() {
      var _ := TurnSteps.EndTurn(sink, TerminalOf(e));
    }
  }

  /** How a turn that began ends in its word: completed with its calls paired, or with the event of the error. */
  ghost predicate TurnEnded(run: Result<Outcome, LoopError>, r: E.Run, log: Log, config: Config) {
    && r.word != []
    && match run
       case Ok(outcome) => Finished(r, log, outcome, config)
       case Err(e) => r.word[|r.word| - 1] == EndingOf(e)
  }

  /** What the service reports of a run, once it tried to persist the session. */
  predicate Reports(result: Result<Outcome, ServiceError>, run: Result<Outcome, LoopError>) {
    match run
    case Ok(outcome) => result in {Ok(outcome), Err(Persistence)}
    case Err(e) => result in {Err(Agent(e)), Err(AgentAndPersistence(e))}
  }

  /** The store after the service, and how the result tells what became of the commit. */
  ghost predicate StoreWent(result: Result<Outcome, ServiceError>, committed: Option<S.Session>, store: S.State,
                            w: S.World, held: Held, history: H.HistoryState) {
    var ended := Ended(w, held, history);
    var persisted, found := Commits(w, held), Found(ended, held);
    match result
    case Ok(_) => persisted && found.1.Some? && committed == found.1 && store == found.0
    case Err(Persistence) => !(persisted && found.1.Some?) && store == if persisted then found.0 else ended.store
    case Err(Agent(_)) => persisted && store == ended.store
    case Err(AgentAndPersistence(_)) => !persisted && store == ended.store
  }

  /** The commit of a run that succeeded, or the end of one that failed. */
  method Settle(run: Result<Outcome, LoopError>, store: S.Store, held: Held, history: H.HistoryState, ghost w: S.World)
    returns (result: Result<Outcome, ServiceError>, committed: Option<S.Session>)
    requires store.View() == w.store
    modifies store
    ensures Reports(result, run) && StoreWent(result, committed, store.View(), w, held, history)
  {
    committed := None;
    var persisted := Finish(store, held, history, w);
    match run {
      case Err(e) => result := Err(Failure(e, persisted));
      case Ok(outcome) =>
        if !persisted { return Err(Persistence), committed; }
        committed := ReadBack(store, held, Ended(w, held, history));
        result := if committed.Some? then Ok(outcome) else Err(Persistence);
    }
  }

  /** The end of the turn changes nothing in what its story tells. */
  lemma ToldLater(e: LoopError, enabled: bool, t: Story, config: Config, cap: seq<Events.EventBody>)
    requires Told(Err(e), enabled, t, config) && IsCap(cap)
    ensures Told(Err(e), enabled, Story(t.said, t.word + cap, t.log), config)
  {
    if t.said != [] || t.log != [] {
      hide Tried, Explains, Recorded;
      CapIsAside(cap);
      ObeysLater(enabled, t, cap);
      KeepsCapped(t, Pick(t.said, OpeningIn), cap);
    }
  }

  lemma ObeysLater(enabled: bool, t: Story, cap: seq<Events.EventBody>)
    requires Obeys(enabled, t) && Aside(cap, EventOwner)
    ensures Obeys(enabled, Story(t.said, t.word + cap, t.log))
  {
    hide LawfulCall;
    forall id
      ensures LawfulCall(enabled, About(t.said, ExchangeOwner, id), About(t.word + cap, EventOwner, id),
                         About(t.log, EntryOwner, id))
    {
      AboutAppend(t.word, cap, EventOwner, id);
      AsideUntouched(cap, EventOwner, id);
      NothingMore(About(t.word, EventOwner, id));
    }
  }

  lemma KeepsCapped(t: Story, tries: seq<Exchange>, cap: seq<Events.EventBody>)
    requires Keeps(t, tries) && Deltaless(cap)
    ensures Keeps(Story(t.said, t.word + cap, t.log), tries)
  {
    OpenersShowNothing(cap);
    Events.ShownAppend(t.word, cap);
    NothingMore(Events.TextShown(t.word));
    NothingMore(Events.ThoughtShown(t.word));
  }

  /** How a run leaves the turn for the service. */
  lemma RunLeaves(run: Result<Outcome, LoopError>, live: bool, r: E.Run, r0: E.Run, log: Log, config: Config,
                  settings: Settings, cancelledAtEntry: bool)
    requires RunWent(run, live, r, r0, log, config, settings, cancelledAtEntry)
    requires r0.state.integrity.phase.NotStarted?
    ensures settings.Valid() && !cancelledAtEntry && r == r0 ==> !live
    ensures !settings.Valid() || cancelledAtEntry ==> r == r0 && run.Err?
    ensures match run
      case Ok(outcome) => Finished(r, log, outcome, config) && r.state.integrity.phase.Terminal? && r.word != []
      case Err(e) =>
        || r == r0 || r.state.integrity.phase.Active?
        || (r.state.integrity.phase.Terminal? && r.word != [] && r.word[|r.word| - 1] == EndingOf(e))
  {
  }

  /** The run itself, and the terminal event of its error. */
  method RunAndTerminalize(sink: E.TurnEventEmitter, config: Config, settings: Settings, host: Host,
                           history: H.History, cancelledAtEntry: bool)
    returns (run: Result<Outcome, LoopError>, ghost log: Log)
    requires sink.Valid() && E.Sound(sink.View()) && config.Valid() && host.said == []
    modifies sink, sink.bus, history, host
    ensures OneWay(sink) && Recent(history.legacy, log)
    ensures Told(run, settings.toolsEnabled, Story(host.said, sink.View().word, log), config)
    ensures Live(sink) ==>
      (sink.integrity.phase.Terminal? <==>
         !old(sink.integrity.phase.NotStarted?) || (settings.Valid() && !cancelledAtEntry))
    ensures old(sink.integrity.phase.NotStarted?) ==>
      if sink.integrity.phase.Terminal? then TurnEnded(run, sink.View(), log, config) else run.Err?
    ensures sink.integrity.phase.NotStarted? ==> sink.View() == old(sink.View())
  {
    hide Told, Finished, RunWent, Recent;
    ghost var r0 := sink.View();
    run, log := Run(sink, config, settings, host, history, cancelledAtEntry);
    if r0.state.integrity.phase.NotStarted? {
      RunLeaves(run, Live(sink), sink.View(), r0, log, config, settings, cancelledAtEntry);
    }
    if run.Err? {
      ghost var word := sink.View().word;
      Terminalize(sink, run.error);
      ghost var cap := sink.View().word[|word|..];
      NothingMore(word);
      ToldLater(run.error, settings.toolsEnabled, Story(host.said, word, log), config, cap);
    }
  }

  /** When a turn is terminal after the service: by the phase it was found in and what the checks say. */
  predicate EndsTerminal(phase: Integrity.TurnPhase, config: Config, settings: Settings,
                         cancelledAtStart: bool, cancelledAtEntry: bool) {
    match phase
    case NotStarted => !config.Valid() || cancelledAtStart || (settings.Valid() && !cancelledAtEntry)
    case Active => !config.Valid() || !cancelledAtStart
    case Terminal => true
  }

  /** The events of the service: a refused configuration, an early cancellation, or the run. */
  method RunTurn(sink: E.TurnEventEmitter, config: Config, settings: Settings, host: Host, history: H.History,
                 cancelledAtStart: bool, cancelledAtEntry: bool)
    returns (run: Result<Outcome, LoopError>, ghost log: Log)
    requires sink.Valid() && E.Sound(sink.View()) && host.said == []
    modifies sink, sink.bus, history, host
    ensures OneWay(sink) && Recent(history.legacy, log)
    ensures Told(run, settings.toolsEnabled, Story(host.said, sink.View().word, log), config)
    ensures !config.Valid() ==> run == Err(InvalidConfig) && history.View() == old(history.View())
    ensures Live(sink) ==>
      sink.integrity.phase.Terminal?
        == EndsTerminal(old(sink.integrity.phase), config, settings, cancelledAtStart, cancelledAtEntry)
    ensures old(sink.integrity.phase.NotStarted?) ==>
      if sink.integrity.phase.Terminal? then TurnEnded(run, sink.View(), log, config) else run.Err?
    ensures sink.integrity.phase.NotStarted? ==> sink.View() == old(sink.View())
  {
    hide Fulfilled, Halting, Tried, Finished, Pick;
    log := [];
    assert HistoryRecovery.LegacyOf(log) == [];
    if !config.Valid() {
      FailAtOnce(sink);
      run := Err(InvalidConfig);
    } else if cancelledAtStart {
      var ok := CancelAtOnce(sink);
      run := Err(if ok then LoopError.Cancelled else LoopError.SemanticEventRejected);
    } else {
      run, log := RunAndTerminalize(sink, config, settings, host, history, cancelledAtEntry);
    }
  }

  /**
   * `run_started`. While the client listens, the turn is terminal afterwards except when it never began, which takes a
   * valid configuration and an invalid session or a cancellation between the two checks, or when it had begun before
   * and is found cancelled at the first check. A turn that is terminal ended with the event that fits the result. The
   * turn is ended in the store whatever happens, after its events unless the configuration was refused, and the
   * result tells whether that persisted it. What the host was asked and answered fits the events and the history.
   */
  method RunStarted(sink: E.TurnEventEmitter, config: Config, settings: Settings, host: Host, history: H.History,
                    cancelledAtStart: bool, cancelledAtEntry: bool, store: S.Store, held: Held, ghost w: S.World)
    returns (result: Result<Outcome, ServiceError>, committed: Option<S.Session>,
             ghost run: Result<Outcome, LoopError>, ghost log: Log)
    requires sink.Valid() && E.Sound(sink.View()) && store.View() == w.store && host.said == []
    modifies sink, sink.bus, history, store, host
    ensures OneWay(sink) && Recent(history.legacy, log)
    ensures Told(run, settings.toolsEnabled, Story(host.said, sink.View().word, log), config)
    ensures Reports(result, run) && StoreWent(result, committed, store.View(), w, held, history.View())
    ensures Live(sink) ==>
      sink.integrity.phase.Terminal?
        == EndsTerminal(old(sink.integrity.phase), config, settings, cancelledAtStart, cancelledAtEntry)
    ensures old(sink.integrity.phase.NotStarted?) ==>
      if sink.integrity.phase.Terminal? then TurnEnded(run, sink.View(), log, config) else run.Err?
    ensures sink.integrity.phase.NotStarted? ==> sink.View() == old(sink.View())
  {
    hide Told, StoreWent, TurnEnded;
    if !config.Valid() {
      result, committed := Settle(Err(InvalidConfig), store, held, history.View(), w);
    }
    var ran;
    ran, log := RunTurn(sink, config, settings, host, history, cancelledAtStart, cancelledAtEntry);
    if config.Valid() {
      result, committed := Settle(ran, store, held, history.View(), w);
    }
    run := ran;
  }

  // ---------- what is on disk ----------

  /** The turn was begun by this store and is still outstanding when the service ends it. */
  ghost predicate Holds(w: S.World, held: Held) {
    && S.Sound(w) && S.LegalRun(w, held.during) && held.turn in Meanwhile(w, held).turns
    && held.session.id == held.turn.id && held.session.turnCount == held.turn.turnCount
  }

  /** A turn that the store handed out, and that nobody else ended, is held. */
  lemma BegunTurnIsHeld(w: S.World, fault: S.LockFault, held: Held)
    requires S.Sound(w)
    requires S.BeginTurn(w.store, held.turn.id, fault).1
          == S.Started(held.session, held.turn.generation) && held.session.turnCount == held.turn.turnCount
    requires var begun := S.After(w, S.DoBegin(held.turn.id, fault));
      S.LegalRun(begun, held.during) && held.turn in Meanwhile(begun, held).turns
    ensures Holds(S.After(w, S.DoBegin(held.turn.id, fault)), held)
  {
    S.StepKeepsSound(w, S.DoBegin(held.turn.id, fault));
  }

  /** Ending the turn keeps the store sound and releases the lock, whether or not it persisted the session. */
  lemma EndedIsSound(w: S.World, held: Held, history: H.HistoryState)
    requires Holds(w, held)
    ensures S.Sound(Ended(w, held, history)) && held.turn.id !in Ended(w, held, history).store.busy
  {
    EndedIsLast(w, held, history);
    S.RunsStaySound(w, held.during);
    S.StepKeepsSound(Meanwhile(w, held), S.DoEnd(held.turn, Final(held, history), held.now, held.fault.Whole?));
  }

  /** A turn of a session that nobody closed or deleted under it commits exactly if its file can be written. */
  lemma SettledTurnCommitsExactlyWhen(w: S.World, held: Held)
    requires Holds(w, held) && held.turn.id !in Meanwhile(w, held).unsettled
    ensures Commits(w, held) <==> held.fault.Whole?
  {
    S.RunsStaySound(w, held.during);
    assert S.Known(Meanwhile(w, held), held.turn.id);
  }

  /**
   * What a committed turn appended to the history is at the end of the session's file, in order, if its entries can
   * be recovered from text and are not spread over ten turns of their own.
   */
  lemma CommittedTurnIsOnDisk(w: S.World, held: Held, history: H.HistoryState, log: Log)
    requires Holds(w, held) && Commits(w, held) && Recent(history.legacy, log)
    requires forall i | 0 <= i < |log| :: HistoryRecovery.Recoverable(log[i])
    requires C.Users(HistoryRecovery.LegacyOf(log), IsUser) < C.PRESERVE_TURNS
    ensures var disk := S.Read(Ended(w, held, history).store, held.turn.id);
      disk.Some? && C.IsSuffix(log, H.Visible(disk.value.history))
  {
    var texts := HistoryRecovery.LegacyOf(log);
    var earlier := history.legacy[..|history.legacy| - |texts|];
    assert history.legacy == earlier + texts;
    HistoryRecovery.LaterEntriesComeBack(earlier, log);
    CommittedIsRead(w, held, history);
  }

  lemma CommittedIsRead(w: S.World, held: Held, history: H.HistoryState)
    requires Holds(w, held) && Commits(w, held)
    ensures var disk := S.Read(Ended(w, held, history).store, held.turn.id);
      disk.Some? && H.Visible(disk.value.history) == H.Normalize(history.legacy)
  {
    EndedIsLast(w, held, history);
  }
}
