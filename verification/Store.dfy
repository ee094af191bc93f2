/** The session store of one process: a write-through cache over atomic files, with a lock file for each turn. */
module Store {
  import opened Prelude
  import H = History
  import HistoryRecovery

  datatype Rule = Rule(tool: string, kind: string, allow: bool)

  /** What a user configures; a turn does not change it. */
  datatype Settings = Settings(
    cwd: string,
    directories: seq<string>,
    title: Option<string>,
    model: string,
    think: Option<nat>,
    toolsEnabled: bool,
    mode: string,
    rules: seq<Rule>)

  datatype Session = Session(
    id: string,
    settings: Settings,
    createdAt: string,
    updatedAt: string,
    turnCount: nat,
    history: H.HistoryState)

  /** A history as it is read back from the entries that were written. */
  function Reloaded(h: H.HistoryState): H.HistoryState {
    H.HistoryState(H.Visible(h), HistoryRecovery.LegacyOf(H.Visible(h)), false)
  }

  /** A session as it is read back from its file. Two sessions are equal to a reader if these are. */
  function Stored(s: Session): Session {
    s.(history := Reloaded(s.history))
  }

  datatype Live = Live(session: Session, generation: nat)

  /** A lock file: of a turn in this process, of a dead process, or one that must be left alone. */
  datatype Sentinel = Ours | Stale | Foreign

  /** `files` has `None` for a file that cannot be read as a session. */
  datatype State = State(files: map<string, Option<Session>>, live: map<string, Live>, busy: map<string, Sentinel>)

  function Read(s: State, id: string): Option<Session> {
    if id in s.files then s.files[id] else None
  }

  function Persisted(s: State, session: Session): State {
    s.(files := s.files[session.id := Some(Stored(session))])
  }

  function Cached(s: State, session: Session, generation: nat): State {
    s.(live := s.live[session.id := Live(session, generation)])
  }

  function Released(s: State, id: string): State {
    s.(busy := s.busy - {id})
  }

  // ---------- the lock ----------

  datatype LockFault = NoFault | CreateFails | WriteFails

  datatype LockAnswer = Acquired | Busy | LockIo

  /** `acquire_busy`: only the lock of a dead process is taken over; a failed attempt leaves no lock of ours. */
  function Acquire(s: State, id: string, fault: LockFault): (State, LockAnswer) {
    if id in s.busy && !s.busy[id].Stale? then (s, Busy)
    else if fault.NoFault? then (s.(busy := s.busy[id := Ours]), Acquired)
    else (Released(s, id), LockIo)
  }

  // ---------- the operations ----------

  function Create(s: State, session: Session, ok: bool): (State, bool) {
    if ok then (Cached(Persisted(s, session), session, 0), true) else (s, false)
  }

  function Get(s: State, id: string): (State, Option<Session>) {
    if id in s.live then (s, Some(s.live[id].session))
    else match Read(s, id)
      case None => (s, None)
      case Some(session) => (s.(live := s.live[id := Live(session, 0)]), Some(session))
  }

  datatype BeginAnswer = Started(session: Session, generation: nat) | AlreadyRunning | NotFound | BusyIo

  function BeginTurn(s: State, id: string, fault: LockFault): (State, BeginAnswer) {
    var (locked, answer) := Acquire(s, id, fault);
    match answer
    case Busy => (locked, AlreadyRunning)
    case LockIo => (locked, BusyIo)
    case Acquired =>
      if id in s.live then
        var session, generation := s.live[id].session, SaturatingSucc(s.live[id].generation);
        (locked.(live := s.live[id := Live(session, generation)]), Started(session, generation))
      else match Read(s, id)
        case None => (Released(locked, id), NotFound)
        case Some(session) => (locked.(live := s.live[id := Live(session, 1)]), Started(session, 1))
  }

  datatype UpdateAnswer = Updated | WriteFailed | Missing

  function UpdateSession(s: State, id: string, change: Session -> Session, ok: bool): (State, UpdateAnswer) {
    if id in s.live then
      var updated := change(s.live[id].session);
      if ok then (Persisted(s, updated).(live := s.live[id := s.live[id].(session := updated)]), Updated)
      else (s, WriteFailed)
    else match Read(s, id)
      case None => (s, Missing)
      case Some(session) => if ok then (Persisted(s, change(session)), Updated) else (s, WriteFailed)
  }

  /** The turn's history with the live settings, one more turn, and the time of the commit. */
  function Merged(turn: Session, live: Session, now: string): Session {
    Session(turn.id, live.settings, turn.createdAt, now, SaturatingSucc(turn.turnCount),
            H.HistoryState(H.Normalize(turn.history.legacy), turn.history.legacy, false))
  }

  datatype EndAnswer = Committed | NotPersisted | StaleGeneration(current: nat) | SessionDeleted

  /** `end_turn`: the lock is released whatever happens. */
  function EndTurn(s: State, id: string, turn: Session, expected: nat, now: string, ok: bool): (State, EndAnswer) {
    if id !in s.live then (Released(s, id), SessionDeleted)
    else if expected != 0 && s.live[id].generation != expected then
      (Released(s, id), StaleGeneration(s.live[id].generation))
    else
      var final := Merged(turn, s.live[id].session, now);
      if ok then
        (Released(Persisted(s, final).(live := s.live[id := s.live[id].(session := final)]), id), Committed)
      else (Released(s, id), NotPersisted)
  }

  function Close(s: State, id: string): (State, bool) {
    (Released(s.(live := s.live - {id}), id), id in s.live || id in s.files)
  }

  /** `removed` tells whether the file could be removed. */
  function Delete(s: State, id: string, removed: bool): (State, bool) {
    var files := if removed then s.files - {id} else s.files;
    (Released(s.(live := s.live - {id}, files := files), id), id in s.live || id in s.files)
  }

  function ForkOf(source: Session, id: string, now: string): Session {
    source.(id := id, createdAt := now, updatedAt := now, turnCount := 0,
            settings := source.settings.(title := source.settings.title.Map((t: string) => t + " (fork)"), rules := []))
  }

  function Fork(s: State, source: string, id: string, now: string, ok: bool): (State, Option<Session>) {
    var (cached, found) := Get(s, source);
    match found
    case None => (cached, None)
    case Some(session) =>
      var forked := ForkOf(session, id, now);
      if ok then (Cached(Persisted(cached, forked), forked, 0), Some(forked)) else (cached, None)
  }

  // ---------- the class ----------

  /** Where an atomic write breaks off. */
  datatype WriteFault = Whole | AtCreate | AtWrite | AtSync | AtRename

  class Store {
    var files: map<string, Option<Session>>
    /** Temporary files; nobody reads them. */
    var temporaries: map<string, Option<Session>>
    var live: map<string, Live>
    var busy: map<string, Sentinel>

    function View(): State
      reads this
    {
      State(files, live, busy)
    }

    constructor (files: map<string, Option<Session>>, busy: map<string, Sentinel>)
      ensures View() == State(files, map[], busy)
    {
      this.files, this.temporaries, this.live, this.busy := files, map[], map[], busy;
    }

    /** `write_atomic`: the file changes in one step, after the whole text was written elsewhere, or not at all. */
    method Persist(session: Session, fault: WriteFault) returns (ok: bool)
      modifies this`files, this`temporaries
      ensures ok == fault.Whole?
      ensures files == if ok then old(files)[session.id := Some(Stored(session))] else old(files)
    {
      if fault.AtCreate? { return false; }
      temporaries := temporaries[session.id := None];
      if fault.AtWrite? { return false; }
      temporaries := temporaries[session.id := Some(Stored(session))];
      if fault.AtSync? || fault.AtRename? { return false; }
      files := files[session.id := temporaries[session.id]];
      temporaries := temporaries - {session.id};
      ok := true;
    }

    method AcquireBusy(id: string, fault: LockFault) returns (answer: LockAnswer)
      modifies this`busy
      ensures (View(), answer) == Acquire(old(View()), id, fault)
    {
      if id in busy {
        if !busy[id].Stale? { return Busy; }
        busy := busy - {id};
      }
      if fault.CreateFails? {
        assert busy == old(busy) - {id};
        return LockIo;
      }
      busy := busy[id := Ours];
      if fault.WriteFails? {
        busy := busy - {id};
        assert busy == old(busy) - {id};
        return LockIo;
      }
      assert busy == old(busy)[id := Ours];
      answer := Acquired;
    }

    method ReleaseBusy(id: string)
      modifies this`busy
      ensures View() == Released(old(View()), id)
    {
      busy := busy - {id};
    }

    method CreateSession(session: Session, fault: WriteFault) returns (ok: bool)
      modifies this
      ensures (View(), ok) == Create(old(View()), session, fault.Whole?)
    {
      ok := Persist(session, fault);
      if ok { live := live[session.id := Live(session, 0)]; }
    }

    method GetSession(id: string) returns (session: Option<Session>)
      modifies this`live
      ensures (View(), session) == Get(old(View()), id)
    {
      if id in live { return Some(live[id].session); }
      session := Read(View(), id);
      if session.Some? { live := live[id := Live(session.value, 0)]; }
    }

    method Begin(id: string, fault: LockFault) returns (answer: BeginAnswer)
      modifies this
      ensures (View(), answer) == BeginTurn(old(View()), id, fault)
    {
      var lock := AcquireBusy(id, fault);
      match lock {
        case Busy => answer := AlreadyRunning;
        case LockIo => answer := BusyIo;
        case Acquired =>
          if id in live {
            live := live[id := live[id].(generation := SaturatingSucc(live[id].generation))];
            answer := Started(live[id].session, live[id].generation);
          } else {
            var session := Read(View(), id);
            if session.None? {
              ReleaseBusy(id);
              return NotFound;
            }
            live := live[id := Live(session.value, 1)];
            answer := Started(session.value, 1);
          }
      }
    }

    method Update(id: string, change: Session -> Session, fault: WriteFault) returns (answer: UpdateAnswer)
      modifies this
      ensures (View(), answer) == UpdateSession(old(View()), id, change, fault.Whole?)
    {
      if id in live {
        var updated := change(live[id].session);
        var ok := Persist(updated, fault);
        if !ok { return WriteFailed; }
        live := live[id := live[id].(session := updated)];
        return Updated;
      }
      var session := Read(View(), id);
      if session.None? { return Missing; }
      var ok := Persist(change(session.value), fault);
      answer := if ok then Updated else WriteFailed;
    }

    method End(id: string, turn: Session, expected: nat, now: string, fault: WriteFault) returns (answer: EndAnswer)
      modifies this
      ensures (View(), answer) == EndTurn(old(View()), id, turn, expected, now, fault.Whole?)
    {
      if id !in live {
        ReleaseBusy(id);
        return SessionDeleted;
      }
      var entry := live[id];
      if expected != 0 && entry.generation != expected {
        ReleaseBusy(id);
        return StaleGeneration(entry.generation);
      }
      var kept := entry.session.settings;
      var final := turn.(settings := Settings(kept.cwd, kept.directories, kept.title, kept.model, kept.think,
                                              kept.toolsEnabled, kept.mode, kept.rules));
      var entries := H.NormalizeLegacyEntries(final.history.legacy);
      final := final.(history := H.HistoryState(entries, final.history.legacy, false));
      final := final.(updatedAt := now);
      final := final.(turnCount := SaturatingSucc(final.turnCount));
      var ok := Persist(final, fault);
      if ok { live := live[id := entry.(session := final)]; }
      ReleaseBusy(id);
      answer := if ok then Committed else NotPersisted;
    }

    method CloseSession(id: string) returns (existed: bool)
      modifies this
      ensures (View(), existed) == Close(old(View()), id)
    {
      existed := id in live || id in files;
      live := live - {id};
      ReleaseBusy(id);
    }

    method DeleteSession(id: string, removed: bool) returns (existed: bool)
      modifies this
      ensures (View(), existed) == Delete(old(View()), id, removed)
    {
      existed := id in live || id in files;
      live := live - {id};
      if removed { files := files - {id}; }
      ReleaseBusy(id);
    }

    method ForkSession(source: string, id: string, now: string, fault: WriteFault) returns (forked: Option<Session>)
      modifies this
      ensures (View(), forked) == Fork(old(View()), source, id, now, fault.Whole?)
    {
      var session := GetSession(source);
      if session.None? { return None; }
      var copy := ForkOf(session.value, id, now);
      var ok := Persist(copy, fault);
      if !ok { return None; }
      live := live[copy.id := Live(copy, 0)];
      forked := Some(copy);
    }
  }

  // ---------- coherence ----------

  /** Every file holds a session under its own name, and every live session equals its file. */
  ghost predicate Coherent(s: State) {
    && (forall id | id in s.files && s.files[id].Some? ::
         s.files[id].value.id == id && Stored(s.files[id].value) == s.files[id].value)
    && (forall id | id in s.live ::
         s.live[id].session.id == id && id in s.files && s.files[id] == Some(Stored(s.live[id].session)))
  }

  /** Reading back what was written and writing it again changes nothing. */
  lemma StoredTwice(s: Session)
    ensures Stored(Stored(s)) == Stored(s)
  {
  }

  /** In a coherent store, `get` answers what reading the disk would, and keeps the store coherent. */
  lemma GetIsRead(s: State, id: string)
    requires Coherent(s)
    ensures Get(s, id).1.Map(Stored) == Read(s, id) && Coherent(Get(s, id).0)
  {
  }

  lemma PersistCaches(s: State, session: Session, generation: nat)
    requires Coherent(s)
    ensures Coherent(Persisted(s, session).(live := s.live[session.id := Live(session, generation)]))
  {
    StoredTwice(session);
  }

  /** Writing without caching is right only for a session that is not live. */
  lemma PersistOnly(s: State, session: Session)
    requires Coherent(s) && session.id !in s.live
    ensures Coherent(Persisted(s, session))
  {
    StoredTwice(session);
  }

  /** A change that keeps the identity of every session. */
  ghost predicate KeepsId(change: Session -> Session) {
    forall s :: change(s).id == s.id
  }

  lemma UpdateKeepsCoherent(s: State, id: string, change: Session -> Session, ok: bool)
    requires Coherent(s) && KeepsId(change)
    ensures Coherent(UpdateSession(s, id, change, ok).0)
  {
    if ok && id in s.live {
      PersistCaches(s, change(s.live[id].session), s.live[id].generation);
    } else if ok && Read(s, id).Some? {
      PersistOnly(s, change(Read(s, id).value));
    }
  }

  /** An update of a live session keeps the store coherent exactly if it keeps the identity of that session. */
  lemma LiveUpdateIsCoherentExactlyWhen(s: State, id: string, change: Session -> Session)
    requires Coherent(s) && id in s.live
    ensures Coherent(UpdateSession(s, id, change, true).0) <==> change(s.live[id].session).id == id
  {
    var updated := change(s.live[id].session);
    if updated.id == id {
      PersistCaches(s, updated, s.live[id].generation);
    } else {
      assert UpdateSession(s, id, change, true).0.live[id].session == updated;
    }
  }

  lemma EndKeepsCoherent(s: State, id: string, turn: Session, expected: nat, now: string, ok: bool)
    requires Coherent(s) && turn.id == id
    ensures Coherent(EndTurn(s, id, turn, expected, now, ok).0)
  {
    if id in s.live {
      PersistCaches(s, Merged(turn, s.live[id].session, now), s.live[id].generation);
    }
  }

  // ---------- runs ----------

  /** What a caller of `begin_turn` holds until it ends the turn. */
  datatype Turn = Turn(id: string, generation: nat, turnCount: nat)

  /**
   * The store, the turns begun and not ended, and the commits of each session. `unsettled` are the sessions that were
   * closed or deleted while a turn of theirs was outstanding, until all their turns have ended; `disturbed` are the
   * sessions to which this ever happened.
   */
  datatype World = World(store: State, turns: multiset<Turn>, unsettled: set<string>, disturbed: set<string>,
                         commits: map<string, nat>)

  /** Somebody holds a turn of this session. */
  ghost predicate Outstanding(turns: multiset<Turn>, id: string) {
    exists t :: t in turns && t.id == id
  }

  /** The bookkeeping when a session leaves the cache. */
  ghost function Removed(w: World, id: string): World {
    if Outstanding(w.turns, id) then w.(unsettled := w.unsettled + {id}, disturbed := w.disturbed + {id}) else w
  }

  /** The bookkeeping when a turn ends. */
  ghost function Returned(w: World, turn: Turn): World {
    var turns := w.turns - multiset{turn};
    w.(turns := turns, unsettled := if Outstanding(turns, turn.id) then w.unsettled else w.unsettled - {turn.id})
  }

  /** A commit of this turn would not be refused as stale. */
  predicate IsLive(s: State, turn: Turn) {
    turn.id in s.live && (turn.generation == 0 || s.live[turn.id].generation == turn.generation)
  }

  datatype Step =
    | DoCreate(session: Session, ok: bool)
    | DoGet(id: string)
    | DoBegin(id: string, fault: LockFault)
    | DoUpdate(id: string, change: Session -> Session, ok: bool)
    | DoEnd(turn: Turn, session: Session, now: string, ok: bool)
    | DoFork(source: string, id: string, now: string, ok: bool)
    | DoClose(id: string)
    | DoDelete(id: string, removed: bool)

  /** Identities of new sessions are fresh, updates keep identity and count, a turn is ended by who holds it. */
  ghost predicate Legal(w: World, step: Step) {
    match step
    case DoCreate(session, _) => Fresh(w, session.id) && session.turnCount == 0
    case DoFork(_, id, _, _) => Fresh(w, id)
    case DoUpdate(_, change, _) => KeepsId(change) && forall s :: change(s).turnCount == s.turnCount
    case DoEnd(turn, session, _, _) =>
      turn in w.turns && session.id == turn.id && session.turnCount == turn.turnCount
    case _ => true
  }

  ghost predicate Fresh(w: World, id: string) {
    && id !in w.store.files && id !in w.store.live && id !in w.store.busy && id !in w.commits
    && forall t | t in w.turns :: t.id != id
  }

  ghost function After(w: World, step: Step): World {
    match step
    case DoCreate(session, ok) =>
      w.(store := Create(w.store, session, ok).0, commits := if ok then w.commits[session.id := 0] else w.commits)
    case DoGet(id) => w.(store := Get(w.store, id).0)
    case DoBegin(id, fault) =>
      var (store, answer) := BeginTurn(w.store, id, fault);
      w.(store := store, turns :=
        if answer.Started? then w.turns + multiset{Turn(id, answer.generation, answer.session.turnCount)} else w.turns)
    case DoUpdate(id, change, ok) => w.(store := UpdateSession(w.store, id, change, ok).0)
    case DoEnd(turn, session, now, ok) =>
      var (store, answer) := EndTurn(w.store, turn.id, session, turn.generation, now, ok);
      Returned(w, turn).(store := store, commits :=
        if answer.Committed? && turn.id in w.commits then w.commits[turn.id := w.commits[turn.id] + 1] else w.commits)
    case DoFork(source, id, now, ok) =>
      var (store, forked) := Fork(w.store, source, id, now, ok);
      w.(store := store, commits := if forked.Some? then w.commits[id := 0] else w.commits)
    case DoClose(id) => Removed(w, id).(store := Close(w.store, id).0)
    case DoDelete(id, removed) => Removed(w, id).(store := Delete(w.store, id, removed).0)
  }

  /** A process that opens a directory of session files; the commits so far are what the files say. */
  ghost predicate Opened(w: World) {
    && Coherent(w.store) && w.store.live == map[] && w.turns == multiset{} && w.unsettled == {}
    && forall id | id in w.store.files ::
         id in w.commits && (w.store.files[id].Some? ==> w.store.files[id].value.turnCount == Saturated(w.commits[id]))
  }

  /** The world after a run. */
  ghost function Play(w: World, steps: seq<Step>): World
    decreases |steps|
  {
    if steps == [] then w else Play(After(w, steps[0]), steps[1..])
  }

  function FaultOf(ok: bool): WriteFault {
    if ok then Whole else AtRename
  }

  /** One call of the store, by whoever makes it. */
  method Perform(store: Store, step: Step, ghost w: World)
    requires store.View() == w.store
    modifies store
    ensures store.View() == After(w, step).store
  {
    match step {
      case DoCreate(session, ok) => var _ := store.CreateSession(session, FaultOf(ok));
      case DoGet(id) => var _ := store.GetSession(id);
      case DoBegin(id, fault) => var _ := store.Begin(id, fault);
      case DoUpdate(id, change, ok) => var _ := store.Update(id, change, FaultOf(ok));
      case DoEnd(turn, session, now, ok) => var _ := store.End(turn.id, session, turn.generation, now, FaultOf(ok));
      case DoFork(source, id, now, ok) => var _ := store.ForkSession(source, id, now, FaultOf(ok));
      case DoClose(id) => var _ := store.CloseSession(id);
      case DoDelete(id, removed) => var _ := store.DeleteSession(id, removed);
    }
  }

  lemma PlaySnoc(w: World, steps: seq<Step>, k: nat)
    requires k < |steps|
    ensures Play(w, steps[..k + 1]) == After(Play(w, steps[..k]), steps[k])
    decreases k
  {
    assert steps[..k + 1][1..] == steps[1..][..k];
    if k > 0 {
      assert steps[..k][1..] == steps[1..][..k - 1];
      PlaySnoc(After(w, steps[0]), steps[1..], k - 1);
    }
  }

  /** Any calls of the class take the store where the run of these steps takes it. */
  method PerformAll(store: Store, steps: seq<Step>, ghost w: World)
    requires store.View() == w.store
    modifies store
    ensures store.View() == Play(w, steps).store
  {
    assert steps[..0] == [];
    for k := 0 to |steps|
      invariant store.View() == Play(w, steps[..k]).store
    {
      Perform(store, steps[k], Play(w, steps[..k]));
      PlaySnoc(w, steps, k);
    }
    assert steps[..|steps|] == steps;
  }

  ghost predicate LegalRun(w: World, steps: seq<Step>)
    decreases |steps|
  {
    steps == [] || (Legal(w, steps[0]) && LegalRun(After(w, steps[0]), steps[1..]))
  }

  /** At most one turn of this session is outstanding. */
  ghost predicate AtMostOne(turns: multiset<Turn>, id: string) {
    forall t, u | t in turns && u in turns && t.id == id && u.id == id :: t == u && turns[t] == 1
  }

  /** The turns of a settled session: at most one, current, and protected by the lock. */
  ghost predicate Exclusive(w: World, id: string) {
    && AtMostOne(w.turns, id)
    && (forall t | t in w.turns && t.id == id ::
         && id in w.store.live && w.store.live[id].generation == t.generation
         && w.store.live[id].session.turnCount == t.turnCount
         && id in w.store.busy && w.store.busy[id].Ours?)
  }

  /** The turn count of a session is the number of its commits. */
  ghost predicate Counted(w: World, id: string) {
    id in w.store.files && w.store.files[id].Some? ==>
      id in w.commits && w.store.files[id].value.turnCount == Saturated(w.commits[id])
  }

  /** An unsettled session has an outstanding turn that is not alone, not current, or not protected by the lock. */
  ghost predicate Exposed(w: World, id: string) {
    && Outstanding(w.turns, id)
    && (id in w.store.busy && w.store.busy[id].Ours? && AtMostOne(w.turns, id) ==>
          id !in w.store.live || w.store.live[id].generation == 0)
  }

  /** What is known of one session. */
  ghost predicate Known(w: World, id: string) {
    && (if id in w.unsettled then Exposed(w, id) else Exclusive(w, id))
    && (id in w.disturbed || Counted(w, id))
  }

  ghost predicate Sound(w: World) {
    && Coherent(w.store)
    && (forall t | t in w.turns :: t.generation > 0)
    && w.unsettled <= w.disturbed
    && forall id :: Known(w, id)
  }

  /** Two stores that agree on a session. */
  ghost predicate SameStored(s: State, after: State, id: string) {
    && (id in after.files <==> id in s.files) && (id in s.files ==> after.files[id] == s.files[id])
    && (id in after.live <==> id in s.live) && (id in s.live ==> after.live[id] == s.live[id])
    && (id in after.busy <==> id in s.busy) && (id in s.busy ==> after.busy[id] == s.busy[id])
  }

  /** The callers agree on a session. */
  ghost predicate SameHeld(w: World, after: World, id: string) {
    && (id in w.commits ==> id in after.commits && after.commits[id] == w.commits[id])
    && (id in after.unsettled <==> id in w.unsettled) && (id in w.disturbed ==> id in after.disturbed)
    && (forall t: Turn | t.id == id :: after.turns[t] == w.turns[t])
  }

  /** A step that changes nothing about a session keeps what is known of it. */
  ghost predicate Untouched(w: World, after: World, id: string) {
    SameStored(w.store, after.store, id) && SameHeld(w, after, id)
  }

  lemma SameTurns(turns: multiset<Turn>, after: multiset<Turn>, id: string)
    requires forall t: Turn | t.id == id :: after[t] == turns[t]
    ensures Outstanding(after, id) <==> Outstanding(turns, id)
    ensures AtMostOne(after, id) <==> AtMostOne(turns, id)
  {
    assert forall t: Turn | t.id == id :: t in after <==> t in turns;
  }

  lemma UntouchedStays(w: World, after: World, id: string)
    requires Known(w, id) && Untouched(w, after, id)
    ensures Known(after, id)
  {
    SameTurns(w.turns, after.turns, id);
    assert forall t: Turn | t.id == id :: t in after.turns <==> t in w.turns;
  }

  /** What a step on one session has to keep. */
  ghost predicate Kept(after: World, id: string) {
    && Coherent(after.store) && (forall t | t in after.turns :: t.generation > 0)
    && after.unsettled <= after.disturbed && Known(after, id)
  }

  ghost predicate OthersStored(s: State, after: State, id: string) {
    forall other | other != id :: SameStored(s, after, other)
  }

  ghost predicate OthersHeld(w: World, after: World, id: string) {
    forall other | other != id :: SameHeld(w, after, other)
  }

  lemma OneSessionTouched(w: World, after: World, id: string)
    requires Sound(w) && Kept(after, id)
    requires OthersStored(w.store, after.store, id) && OthersHeld(w, after, id)
    ensures Sound(after)
  {
    forall other
      ensures Known(after, other)
    {
      if other != id { UntouchedStays(w, after, other); }
    }
  }

  lemma CreateTouchesOne(s: State, session: Session, ok: bool)
    ensures OthersStored(s, Create(s, session, ok).0, session.id)
  {
  }

  lemma CreateKeepsKnown(w: World, session: Session, ok: bool)
    requires Known(w, session.id) && Legal(w, DoCreate(session, ok))
    ensures Known(After(w, DoCreate(session, ok)), session.id)
  {
    assert !Outstanding(w.turns, session.id);
  }

  lemma CreateKeepsSound(w: World, session: Session, ok: bool)
    requires Sound(w) && Legal(w, DoCreate(session, ok))
    ensures Sound(After(w, DoCreate(session, ok)))
  {
    if ok { PersistCaches(w.store, session, 0); }
    CreateTouchesOne(w.store, session, ok);
    CreateKeepsKnown(w, session, ok);
    OneSessionTouched(w, After(w, DoCreate(session, ok)), session.id);
  }

  lemma GetTouchesOne(s: State, id: string)
    ensures OthersStored(s, Get(s, id).0, id)
  {
  }

  lemma GetKeepsKnown(w: World, id: string)
    requires Coherent(w.store) && Known(w, id)
    ensures Known(After(w, DoGet(id)), id)
  {
  }

  lemma GetKeepsSound(w: World, id: string)
    requires Sound(w)
    ensures Sound(After(w, DoGet(id)))
  {
    GetIsRead(w.store, id);
    GetTouchesOne(w.store, id);
    GetKeepsKnown(w, id);
    OneSessionTouched(w, After(w, DoGet(id)), id);
  }

  lemma UpdateTouchesOne(s: State, id: string, change: Session -> Session, ok: bool)
    requires Coherent(s) && KeepsId(change)
    ensures OthersStored(s, UpdateSession(s, id, change, ok).0, id)
  {
  }

  lemma UpdateKeepsKnown(w: World, id: string, change: Session -> Session, ok: bool)
    requires Coherent(w.store) && Known(w, id) && KeepsId(change) && forall s :: change(s).turnCount == s.turnCount
    ensures Known(After(w, DoUpdate(id, change, ok)), id)
  {
  }

  lemma UpdateKeepsSound(w: World, id: string, change: Session -> Session, ok: bool)
    requires Sound(w) && Legal(w, DoUpdate(id, change, ok))
    ensures Sound(After(w, DoUpdate(id, change, ok)))
  {
    UpdateKeepsCoherent(w.store, id, change, ok);
    UpdateTouchesOne(w.store, id, change, ok);
    UpdateKeepsKnown(w, id, change, ok);
    OneSessionTouched(w, After(w, DoUpdate(id, change, ok)), id);
  }

  lemma BeginKeepsCoherent(s: State, id: string, fault: LockFault)
    requires Coherent(s)
    ensures Coherent(BeginTurn(s, id, fault).0)
    ensures var answer := BeginTurn(s, id, fault).1; answer.Started? ==> answer.generation > 0
  {
    var (locked, answer) := Acquire(s, id, fault);
    assert Coherent(locked) && locked.files == s.files && locked.live == s.live;
    if answer.Acquired? && id !in s.live && Read(s, id).Some? {
      assert Stored(Read(s, id).value) == Read(s, id).value;
    }
  }

  lemma BeginTouchesOne(s: State, id: string, fault: LockFault)
    ensures OthersStored(s, BeginTurn(s, id, fault).0, id)
  {
  }

  lemma BeginKeepsPositive(w: World, id: string, fault: LockFault)
    requires forall t | t in w.turns :: t.generation > 0
    ensures forall t | t in After(w, DoBegin(id, fault)).turns :: t.generation > 0
  {
  }

  /** A turn starts only where no turn is outstanding. */
  lemma BeginNeedsNoTurn(w: World, id: string, fault: LockFault)
    requires Exclusive(w, id) && Outstanding(w.turns, id)
    ensures BeginTurn(w.store, id, fault) == (w.store, AlreadyRunning)
  {
  }

  lemma FirstTurn(w: World, id: string, fault: LockFault)
    requires Coherent(w.store) && !Outstanding(w.turns, id)
    ensures Exclusive(After(w, DoBegin(id, fault)), id)
  {
    if !BeginTurn(w.store, id, fault).1.Started? { assert After(w, DoBegin(id, fault)).turns == w.turns; }
  }

  lemma NotAlone(turns: multiset<Turn>, turn: Turn)
    requires Outstanding(turns, turn.id)
    ensures Outstanding(turns + multiset{turn}, turn.id) && !AtMostOne(turns + multiset{turn}, turn.id)
  {
    var t :| t in turns && t.id == turn.id;
    assert t in turns + multiset{turn} && turn in turns + multiset{turn};
  }

  /** A session that is not settled stays so when another turn begins. */
  lemma BeginStaysExposed(w: World, id: string, fault: LockFault)
    requires Exposed(w, id)
    ensures Exposed(After(w, DoBegin(id, fault)), id)
  {
    var (store, answer) := BeginTurn(w.store, id, fault);
    if answer.Started? {
      NotAlone(w.turns, Turn(id, answer.generation, answer.session.turnCount));
    }
  }

  lemma BeginKeepsCounted(w: World, id: string, fault: LockFault)
    requires Counted(w, id)
    ensures Counted(After(w, DoBegin(id, fault)), id)
  {
  }

  lemma BeginKeepsKnown(w: World, id: string, fault: LockFault)
    requires Coherent(w.store) && Known(w, id)
    ensures Known(After(w, DoBegin(id, fault)), id)
  {
    if id !in w.disturbed { BeginKeepsCounted(w, id, fault); }
    if id in w.unsettled {
      BeginStaysExposed(w, id, fault);
    } else if Outstanding(w.turns, id) {
      BeginNeedsNoTurn(w, id, fault);
      assert After(w, DoBegin(id, fault)) == w;
    } else {
      FirstTurn(w, id, fault);
    }
  }

  lemma BeginKeepsSound(w: World, id: string, fault: LockFault)
    requires Sound(w)
    ensures Sound(After(w, DoBegin(id, fault)))
  {
    BeginKeepsCoherent(w.store, id, fault);
    BeginKeepsPositive(w, id, fault);
    BeginKeepsKnown(w, id, fault);
    BeginTouchesOne(w.store, id, fault);
    OneSessionTouched(w, After(w, DoBegin(id, fault)), id);
  }

  lemma EndTouchesOne(s: State, id: string, turn: Session, expected: nat, now: string, ok: bool)
    requires turn.id == id
    ensures OthersStored(s, EndTurn(s, id, turn, expected, now, ok).0, id)
  {
  }

  /** After the end of a turn the lock is free, and the session is settled exactly if it was the last turn. */
  lemma EndSettles(w: World, turn: Turn, session: Session, now: string, ok: bool)
    requires turn in w.turns && (turn.id in w.unsettled || AtMostOne(w.turns, turn.id))
    ensures var after := After(w, DoEnd(turn, session, now, ok));
      if turn.id in after.unsettled then Exposed(after, turn.id) else Exclusive(after, turn.id)
  {
    var after := After(w, DoEnd(turn, session, now, ok));
    assert turn.id !in after.store.busy;
    assert after.turns == w.turns - multiset{turn};
    assert AtMostOne(w.turns, turn.id) ==> !Outstanding(after.turns, turn.id);
  }

  lemma EndKeepsCounted(w: World, turn: Turn, session: Session, now: string, ok: bool)
    requires Coherent(w.store) && Exclusive(w, turn.id) && Counted(w, turn.id) && turn.generation > 0
    requires Legal(w, DoEnd(turn, session, now, ok))
    ensures Counted(After(w, DoEnd(turn, session, now, ok)), turn.id)
  {
  }

  /** A turn that is given back says nothing of other sessions. */
  lemma ReturnedHolds(w: World, turn: Turn)
    requires forall t | t in w.turns :: t.generation > 0
    ensures OthersHeld(w, Returned(w, turn), turn.id)
    ensures forall t | t in Returned(w, turn).turns :: t.generation > 0
  {
    assert forall t | t in Returned(w, turn).turns :: t in w.turns;
  }

  lemma EndHolds(w: World, turn: Turn, session: Session, now: string, ok: bool)
    requires forall t | t in w.turns :: t.generation > 0
    ensures OthersHeld(w, After(w, DoEnd(turn, session, now, ok)), turn.id)
    ensures forall t | t in After(w, DoEnd(turn, session, now, ok)).turns :: t.generation > 0
  {
    ReturnedHolds(w, turn);
  }

  lemma EndKeepsKnown(w: World, turn: Turn, session: Session, now: string, ok: bool)
    requires Coherent(w.store) && Known(w, turn.id) && turn.generation > 0 && Legal(w, DoEnd(turn, session, now, ok))
    requires w.unsettled <= w.disturbed
    ensures Known(After(w, DoEnd(turn, session, now, ok)), turn.id)
  {
    EndSettles(w, turn, session, now, ok);
    if turn.id !in w.disturbed { EndKeepsCounted(w, turn, session, now, ok); }
  }

  lemma EndKeepsSound(w: World, turn: Turn, session: Session, now: string, ok: bool)
    requires Sound(w) && Legal(w, DoEnd(turn, session, now, ok))
    ensures Sound(After(w, DoEnd(turn, session, now, ok)))
  {
    EndKeepsCoherent(w.store, turn.id, session, turn.generation, now, ok);
    EndKeepsKnown(w, turn, session, now, ok);
    EndTouchesOne(w.store, turn.id, session, turn.generation, now, ok);
    EndHolds(w, turn, session, now, ok);
    OneSessionTouched(w, After(w, DoEnd(turn, session, now, ok)), turn.id);
  }

  lemma ForkKeepsSound(w: World, source: string, id: string, now: string, ok: bool)
    requires Sound(w) && Legal(w, DoFork(source, id, now, ok))
    ensures Sound(After(w, DoFork(source, id, now, ok)))
  {
    var after := After(w, DoFork(source, id, now, ok));
    GetKeepsSound(w, source);
    var cached := After(w, DoGet(source));
    var found := Get(w.store, source).1;
    if found.Some? && ok {
      CopyKeepsSound(cached, ForkOf(found.value, id, now));
    } else {
      assert after == cached;
    }
  }

  lemma CopyKeepsSound(w: World, copy: Session)
    requires Sound(w) && Fresh(w, copy.id) && copy.turnCount == 0
    ensures Sound(w.(store := Cached(Persisted(w.store, copy), copy, 0), commits := w.commits[copy.id := 0]))
  {
    CreateKeepsSound(w, copy, true);
  }

  /** The session is gone from the cache, its lock is gone, and its file is unchanged or gone. */
  ghost predicate Gone(s: State, after: State, id: string) {
    && id !in after.live && id !in after.busy
    && (id in after.files ==> id in s.files && after.files[id] == s.files[id])
    && OthersStored(s, after, id) && Coherent(after)
  }

  lemma CloseIsGone(s: State, id: string)
    requires Coherent(s)
    ensures Gone(s, Close(s, id).0, id)
  {
  }

  lemma DeleteIsGone(s: State, id: string, removed: bool)
    requires Coherent(s)
    ensures Gone(s, Delete(s, id, removed).0, id)
  {
  }

  /** A session that leaves the cache is settled exactly if no turn of it is outstanding. */
  lemma RemovedIsKnown(w: World, id: string, store: State)
    requires Known(w, id) && Gone(w.store, store, id)
    ensures Known(Removed(w, id).(store := store), id)
  {
    assert Removed(w, id).turns == w.turns;
  }

  lemma RemovedHolds(w: World, id: string)
    ensures OthersHeld(w, Removed(w, id), id)
    ensures Removed(w, id).turns == w.turns
    ensures w.unsettled <= w.disturbed ==> Removed(w, id).unsettled <= Removed(w, id).disturbed
  {
  }

  lemma RemovedKeepsSound(w: World, id: string, store: State)
    requires Sound(w) && Gone(w.store, store, id)
    ensures Sound(Removed(w, id).(store := store))
  {
    RemovedIsKnown(w, id, store);
    RemovedHolds(w, id);
    OneSessionTouched(w, Removed(w, id).(store := store), id);
  }

  lemma CloseKeepsSound(w: World, id: string)
    requires Sound(w)
    ensures Sound(After(w, DoClose(id)))
  {
    CloseIsGone(w.store, id);
    RemovedKeepsSound(w, id, Close(w.store, id).0);
  }

  lemma DeleteKeepsSound(w: World, id: string, removed: bool)
    requires Sound(w)
    ensures Sound(After(w, DoDelete(id, removed)))
  {
    DeleteIsGone(w.store, id, removed);
    RemovedKeepsSound(w, id, Delete(w.store, id, removed).0);
  }

  lemma StepKeepsSound(w: World, step: Step)
    requires Sound(w) && Legal(w, step)
    ensures Sound(After(w, step))
  {
    match step {
      case DoCreate(session, ok) => CreateKeepsSound(w, session, ok);
      case DoGet(id) => GetKeepsSound(w, id);
      case DoBegin(id, fault) => BeginKeepsSound(w, id, fault);
      case DoUpdate(id, change, ok) => UpdateKeepsSound(w, id, change, ok);
      case DoEnd(turn, session, now, ok) => EndKeepsSound(w, turn, session, now, ok);
      case DoFork(source, id, now, ok) => ForkKeepsSound(w, source, id, now, ok);
      case DoClose(id) => CloseKeepsSound(w, id);
      case DoDelete(id, removed) => DeleteKeepsSound(w, id, removed);
    }
  }

  /** Whatever the operations of a run and wherever writing fails: the store stays coherent, turns stay exclusive. */
  lemma {:induction false} RunsStaySound(w: World, steps: seq<Step>)
    requires Sound(w) && LegalRun(w, steps)
    ensures Sound(Play(w, steps))
    decreases |steps|
  {
    if steps != [] {
      StepKeepsSound(w, steps[0]);
      RunsStaySound(After(w, steps[0]), steps[1..]);
    }
  }

  /** Along a run from an opened directory, `get` always answers what reading the disk would. */
  lemma GetIsAlwaysRead(w: World, steps: seq<Step>, id: string)
    requires Opened(w) && LegalRun(w, steps)
    ensures var s := Play(w, steps).store; Get(s, id).1.Map(Stored) == Read(s, id)
  {
    RunsStaySound(w, steps);
    GetIsRead(Play(w, steps).store, id);
  }

  lemma ExposedIsNotExclusive(w: World, id: string)
    requires Exposed(w, id) && forall t | t in w.turns :: t.generation > 0
    ensures !Exclusive(w, id)
  {
  }

  /** At every point of a run, the turns of a session are exclusive exactly if the session is settled. */
  lemma ExclusiveExactlyWhenSettled(w0: World, steps: seq<Step>, id: string)
    requires Opened(w0) && LegalRun(w0, steps)
    ensures var w := Play(w0, steps); Exclusive(w, id) <==> id !in w.unsettled
  {
    RunsStaySound(w0, steps);
    var w := Play(w0, steps);
    assert Known(w, id);
    if id in w.unsettled { ExposedIsNotExclusive(w, id); }
  }

  /** Closing a session keeps its turns exclusive exactly if none of them is outstanding. */
  lemma CloseIsSafeExactlyWhen(w: World, id: string)
    requires Sound(w)
    ensures Exclusive(After(w, DoClose(id)), id) <==> !Outstanding(w.turns, id)
  {
    CloseKeepsSound(w, id);
    var after := After(w, DoClose(id));
    assert Known(w, id) && after.turns == w.turns;
    if id in after.unsettled { ExposedIsNotExclusive(after, id); }
  }

  /** The same for deleting it. */
  lemma DeleteIsSafeExactlyWhen(w: World, id: string, removed: bool)
    requires Sound(w)
    ensures Exclusive(After(w, DoDelete(id, removed)), id) <==> !Outstanding(w.turns, id)
  {
    DeleteKeepsSound(w, id, removed);
    var after := After(w, DoDelete(id, removed));
    assert Known(w, id) && after.turns == w.turns;
    if id in after.unsettled { ExposedIsNotExclusive(after, id); }
  }

  /**
   * Along a run, a settled session has at most one outstanding turn, whose start excludes another and whose end is
   * never stale. If the session was always settled, its turn count is the number of its commits.
   */
  lemma TurnsExclude(w0: World, steps: seq<Step>, turn: Turn, fault: LockFault, session: Session, now: string, ok: bool)
    requires Opened(w0) && LegalRun(w0, steps)
    requires var w := Play(w0, steps); turn in w.turns && turn.id !in w.unsettled && session.id == turn.id
    ensures var w := Play(w0, steps);
      && (forall u | u in w.turns && u.id == turn.id :: u == turn) && w.turns[turn] == 1
      && BeginTurn(w.store, turn.id, fault) == (w.store, AlreadyRunning)
      && EndTurn(w.store, turn.id, session, turn.generation, now, ok).1 == (if ok then Committed else NotPersisted)
      && w.store.live[turn.id].session.turnCount == turn.turnCount
      && (turn.id !in w.disturbed ==> turn.id in w.commits && turn.turnCount == Saturated(w.commits[turn.id]))
  {
    RunsStaySound(w0, steps);
    var w := Play(w0, steps);
    assert Known(w, turn.id);
    BeginNeedsNoTurn(w, turn.id, fault);
  }

  /** A commit joins what the turn wrote with what the user configured meanwhile, on disk and in the cache. */
  lemma CommitMerges(s: State, turn: Session, expected: nat, now: string)
    requires turn.id in s.live && s.live[turn.id].generation == expected
    ensures var (after, answer) := EndTurn(s, turn.id, turn, expected, now, true);
      && answer == Committed && turn.id !in after.busy
      && after.live[turn.id].session.settings == s.live[turn.id].session.settings
      && H.Visible(after.live[turn.id].session.history) == H.Normalize(turn.history.legacy)
      && Read(after, turn.id) == Some(Stored(after.live[turn.id].session))
  {
  }

  // ---------- what readers see ----------

  /** The file of every other session, and what a reader gets of it, is as before. */
  ghost predicate OthersSeen(s: State, after: State, id: string) {
    forall other | other != id :: Read(after, other) == Read(s, other) && Get(after, other).1 == Get(s, other).1
  }

  lemma OthersStoredAreSeen(s: State, after: State, id: string)
    requires OthersStored(s, after, id)
    ensures OthersSeen(s, after, id)
  {
    forall other | other != id
      ensures Read(after, other) == Read(s, other) && Get(after, other).1 == Get(s, other).1
    {
      assert SameStored(s, after, other);
    }
  }

  /** A session is as it was to every reader, in memory and on disk. */
  predicate IsShown(s: State, session: Session) {
    Get(s, session.id).1 == Some(session) && Read(s, session.id) == Some(Stored(session))
  }

  lemma CreatedIsSeen(s: State, session: Session, ok: bool)
    ensures var after := Create(s, session, ok).0;
      OthersSeen(s, after, session.id) && if ok then IsShown(after, session) else after == s
  {
    CreateTouchesOne(s, session, ok);
    OthersStoredAreSeen(s, Create(s, session, ok).0, session.id);
  }

  /** An update shows every reader the changed session, or changes nothing if it cannot be written. */
  lemma UpdatedIsSeen(s: State, id: string, change: Session -> Session, ok: bool)
    requires Coherent(s) && KeepsId(change)
    ensures var (after, answer) := UpdateSession(s, id, change, ok);
      && OthersSeen(s, after, id)
      && match Get(s, id).1
         case None => answer == Missing && after == s
         case Some(session) =>
           if !ok then answer == WriteFailed && after == s
           else answer == Updated && Read(after, id) == Some(Stored(change(session)))
                && Get(after, id).1 == Some(if id in s.live then change(session) else Stored(change(session)))
  {
    UpdateTouchesOne(s, id, change, ok);
    OthersStoredAreSeen(s, UpdateSession(s, id, change, ok).0, id);
  }

  /** A turn gets the session as every reader sees it, and beginning it changes nothing for them. */
  lemma BegunIsSeen(s: State, id: string, fault: LockFault)
    requires Coherent(s)
    ensures var (after, answer) := BeginTurn(s, id, fault);
      && OthersSeen(s, after, id) && Read(after, id) == Read(s, id) && Get(after, id).1 == Get(s, id).1
      && (answer.Started? ==> Get(s, id).1 == Some(answer.session) && IsShown(after, answer.session))
      && (answer.AlreadyRunning? <==> id in s.busy && !s.busy[id].Stale?)
      && (answer.BusyIo? <==> !answer.AlreadyRunning? && !fault.NoFault?)
      && (answer.NotFound? <==> !answer.AlreadyRunning? && fault.NoFault? && Get(s, id).1.None?)
      && (answer.Started? ==> id in after.busy && after.busy[id].Ours?)
      && (answer.BusyIo? || answer.NotFound? ==> id !in after.busy)
  {
    BeginTouchesOne(s, id, fault);
    OthersStoredAreSeen(s, BeginTurn(s, id, fault).0, id);
  }

  /** What a turn's end leaves behind: the merged session, or everything as it was. */
  lemma EndedIsSeen(s: State, turn: Session, expected: nat, now: string, ok: bool)
    requires Coherent(s)
    ensures var (after, answer) := EndTurn(s, turn.id, turn, expected, now, ok);
      && OthersSeen(s, after, turn.id) && turn.id !in after.busy
      && (answer.Committed? <==>
           ok && turn.id in s.live && (expected == 0 || s.live[turn.id].generation == expected))
      && (!answer.Committed? ==> Read(after, turn.id) == Read(s, turn.id) && Get(after, turn.id).1 == Get(s, turn.id).1)
      && (answer.Committed? ==>
           var final := Get(after, turn.id).1.value;
           && turn.id in s.live && IsShown(after, final)
           && final.settings == s.live[turn.id].session.settings && final.history.legacy == turn.history.legacy
           && H.Visible(final.history) == H.Normalize(turn.history.legacy)
           && final.createdAt == turn.createdAt && final.updatedAt == now
           && final.turnCount == SaturatingSucc(turn.turnCount))
  {
  }

  /** Closing a session changes nothing on disk, deleting it removes its file and nothing else. */
  lemma ClosedIsOnDisk(s: State, id: string, removed: bool)
    ensures Close(s, id).0.files == s.files && OthersSeen(s, Close(s, id).0, id)
    ensures Get(Close(s, id).0, id).1 == Read(s, id)
    ensures OthersSeen(s, Delete(s, id, removed).0, id)
    ensures Get(Delete(s, id, removed).0, id).1 == if removed then None else Read(s, id)
  {
  }

  /** What a fork takes over from its source. */
  predicate IsForkOf(forked: Session, source: Session) {
    && H.Visible(forked.history) == H.Visible(source.history) && forked.history.legacy == source.history.legacy
    && forked.settings.cwd == source.settings.cwd && forked.settings.directories == source.settings.directories
    && forked.settings.model == source.settings.model && forked.settings.think == source.settings.think
    && forked.settings.toolsEnabled == source.settings.toolsEnabled && forked.settings.mode == source.settings.mode
    && (forked.settings.title.Some? <==> source.settings.title.Some?)
    && (source.settings.title.Some? ==> source.settings.title.value < forked.settings.title.value)
  }

  /**
   * A fork shows, in memory and on disk, what its source shows, under its own identity, without rules and turns; the
   * source and every other session are as before. Nothing is forked from a session that is not there.
   */
  lemma ForkedIsSeen(s: State, source: string, id: string, now: string, ok: bool)
    requires Coherent(s) && id != source
    ensures var (after, answer) := Fork(s, source, id, now, ok);
      && OthersSeen(s, after, id)
      && (answer.Some? <==> ok && Get(s, source).1.Some?)
      && (answer.None? ==> after.files == s.files)
      && (answer.Some? ==>
           var forked, original := answer.value, Get(s, source).1.value;
           && forked.id == id && IsShown(after, forked) && IsForkOf(forked, original)
           && H.Visible(Read(after, id).value.history) == H.Visible(original.history)
           && forked.settings.rules == [] && forked.turnCount == 0
           && forked.createdAt == now && forked.updatedAt == now
           && Get(after, source).1 == Some(original) && Read(after, source) == Read(s, source))
  {
  }

  lemma RunSteps(w: World, step: Step, rest: seq<Step>)
    ensures Play(w, [step] + rest) == Play(After(w, step), rest)
    ensures LegalRun(w, [step] + rest) <==> Legal(w, step) && LegalRun(After(w, step), rest)
  {
    assert ([step] + rest)[1..] == rest;
  }

  const NO_WORLD := World(State(map[], map[], map[]), multiset{}, {}, {}, map[])

  /** Creating a session and beginning a turn, closing the session and beginning again. */
  function Reopening(session: Session): seq<Step> {
    [DoCreate(session, true), DoBegin(session.id, NoFault), DoClose(session.id), DoBegin(session.id, NoFault)]
  }

  lemma FirstTurnOpens(session: Session) returns (w: World)
    requires session.turnCount == 0
    ensures var steps := Reopening(session);
      && Legal(NO_WORLD, steps[0]) && Legal(After(NO_WORLD, steps[0]), steps[1])
      && w == After(After(NO_WORLD, steps[0]), steps[1])
    ensures w.turns == multiset{Turn(session.id, 1, 0)} && w.store.busy == map[session.id := Ours]
    ensures w.store.files == map[session.id := Some(Stored(session))]
  {
    w := After(After(NO_WORLD, DoCreate(session, true)), DoBegin(session.id, NoFault));
  }

  /**
   * Without the condition it fails: close a session during a turn and begin another one. Both callers hold the same
   * turn, the first commit is accepted, and it releases the lock under the second turn.
   */
  lemma ClosingLetsAnOldTurnCommit(session: Session, now: string)
    requires session.turnCount == 0
    ensures var steps, id := Reopening(session), session.id;
      var w := Play(NO_WORLD, steps);
      && Opened(NO_WORLD) && LegalRun(NO_WORLD, steps)
      && w.turns[Turn(id, 1, 0)] == 2
      && var (after, answer) := EndTurn(w.store, id, session, 1, now, true); answer == Committed && id !in after.busy
  {
    var id, s1, s2 := session.id, DoCreate(session, true), DoBegin(session.id, NoFault);
    var s3 := DoClose(id);
    var w2 := FirstTurnOpens(session);
    var w3 := After(w2, s3);
    var w4 := After(w3, s2);
    assert w4.turns == multiset{Turn(id, 1, 0)} + multiset{Turn(id, 1, 0)};
    assert [s1] + ([s2] + ([s3] + ([s2] + []))) == Reopening(session);
    RunSteps(w3, s2, []);
    RunSteps(w2, s3, [s2] + []);
    RunSteps(After(NO_WORLD, s1), s2, [s3] + ([s2] + []));
    RunSteps(NO_WORLD, s1, [s2] + ([s3] + ([s2] + [])));
  }
}
