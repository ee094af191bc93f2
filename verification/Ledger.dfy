/**
 * The ledger of a turn: what the model was shown, what it said and called for, against what the client sees and what
 * the history keeps; and why a turn stops.
 */
module Ledger {
  import opened Prelude
  import opened Events
  import opened Text
  import opened Json
  import H = History
  import HistoryRecovery
  import C = Compaction
  import opened ModelProjection
  import opened ToolIds
  import opened TurnSteps
  import opened Hosts
  import opened Conduct

  datatype Config = Config(maxRounds: nat, maxToolCallsPerRound: nat, maxToolCallsPerTurn: nat) {
    predicate Valid() {
      maxRounds > 0 && maxToolCallsPerRound > 0 && maxToolCallsPerTurn > 0
    }
  }

  const COMPACTION_THRESHOLD_CHARS: nat := 900_000
  const EMERGENCY_COMPACTION_CHARS: nat := 700_000

  datatype Outcome = Outcome(output: string, rounds: nat, toolCalls: nat)

  datatype LoopError =
    | InvalidConfig
    | Cancelled
    | InvalidSession
    | Llm(error: LlmError)
    | EmptyStream
    | NoProgress
    | MaxRounds(limit: nat)
    | ToolCallLimit(actual: nat, limit: nat)
    | ToolCallBudgetExhausted(actual: nat, limit: nat)
    | InvalidToolCall
    | InvalidModelSequence
    | SemanticEventRejected
    | Action

  type Log = seq<H.HistoryEntry>

  // ---------- what the loop appends to the history ----------

  predicate IsUser(m: H.Message) {
    m.role.UserRole?
  }

  function TextSize(m: H.Message): nat {
    Bytes(m.text)
  }

  /** The appended entries are the end of the history, unless they span ten turns of their own. */
  ghost predicate Recent(legacy: seq<H.Message>, log: Log) {
    var texts := HistoryRecovery.LegacyOf(log);
    C.Users(texts, IsUser) < C.PRESERVE_TURNS ==> C.IsSuffix(texts, legacy)
  }

  lemma RecentSnoc(legacy: seq<H.Message>, log: Log, e: H.HistoryEntry)
    requires Recent(legacy, log)
    ensures Recent(legacy + [H.ToLegacy(e)], log + [e])
  {
    var texts := HistoryRecovery.LegacyOf(log);
    assert HistoryRecovery.LegacyOf(log + [e]) == texts + [H.ToLegacy(e)];
    C.UsersAppend(texts, [H.ToLegacy(e)], IsUser);
  }

  /** The identity and name of every call in the log, in order. */
  function CallsIn(log: Log): Trail {
    if log == [] then []
    else
      var e := log[|log| - 1];
      CallsIn(log[..|log| - 1]) + (if e.ToolCall? then [(e.id, e.name)] else [])
  }

  /** The identity and content of every result in the log, in order. */
  function ResultsIn(log: Log): Trail {
    if log == [] then []
    else
      var e := log[|log| - 1];
      ResultsIn(log[..|log| - 1]) + (if e.ToolResult? then [(e.id, e.content)] else [])
  }

  lemma LogSnoc(log: Log, e: H.HistoryEntry)
    ensures CallsIn(log + [e]) == if e.ToolCall? then CallsIn(log) + [(e.id, e.name)] else CallsIn(log)
    ensures ResultsIn(log + [e]) == if e.ToolResult? then ResultsIn(log) + [(e.id, e.content)] else ResultsIn(log)
  {
  }

  // ---------- what to find in a conversation and in a log ----------

  /** What each item yields, in order. */
  function Pick<T, U>(items: seq<T>, yield': T -> seq<U>): seq<U> {
    if items == [] then []
    else Pick(items[..|items| - 1], yield') + yield'(items[|items| - 1])
  }

  lemma {:induction false} PickAppend<T, U>(a: seq<T>, b: seq<T>, f: T -> seq<U>)
    ensures Pick(a + b, f) == Pick(a, f) + Pick(b, f)
  {
    if b == [] {
      assert a + b == a && Pick(a, f) + [] == Pick(a, f);
    } else {
      var n := |b| - 1;
      assert (a + b)[..|a| + n] == a + b[..n];
      PickAppend(a, b[..n], f);
      Associative(Pick(a, f), Pick(b[..n], f), f(b[n]));
    }
  }

  lemma PickOne<T, U>(item: T, f: T -> seq<U>)
    ensures Pick([item], f) == f(item)
  {
    assert [item][..0] == [] && [] + f(item) == f(item);
  }

  lemma PickTwo<T, U>(a: T, b: T, f: T -> seq<U>)
    ensures Pick([a, b], f) == f(a) + f(b)
  {
    assert [a, b] == [a] + [b];
    PickAppend([a], [b], f);
    PickOne(a, f);
    PickOne(b, f);
  }

  lemma {:induction false} PickNothing<T, U>(items: seq<T>, f: T -> seq<U>)
    requires forall i | 0 <= i < |items| :: f(items[i]) == []
    ensures Pick(items, f) == []
  {
    if items != [] { PickNothing(items[..|items| - 1], f); }
  }

  /** The name and the arguments of a call. The identity may change between the model and the turn. */
  type Plea = (string, Json)

  function PleaOf(call: PendingToolCall): Plea {
    (call.name, call.arguments)
  }

  function Pleas(calls: seq<PendingToolCall>): seq<Plea> {
    seq(|calls|, i requires 0 <= i < |calls| => PleaOf(calls[i]))
  }

  function OpeningIn(x: Exchange): seq<Exchange> {
    if x.StreamOpened? then [x] else []
  }

  /** What the model said when a stream was opened. */
  function HeardIn(x: Exchange): seq<ModelEvent> {
    if x.StreamOpened? && x.stream.Ok? then Heard(x.stream.value) else []
  }

  function SpokenIn(x: Exchange): string {
    TextOf(HeardIn(x))
  }

  function ReasonedIn(x: Exchange): string {
    ReasoningOf(HeardIn(x))
  }

  /** The text as an entry of the history, if it is not blank. */
  function SpeechIn(x: Exchange): seq<string> {
    if Trim(SpokenIn(x)) != "" then [SpokenIn(x)] else []
  }

  function PleasIn(x: Exchange): seq<Plea> {
    Pleas(CallsOf(HeardIn(x)))
  }

  /** A call that an action took. */
  function TakenIn(x: Exchange): seq<Plea> {
    if x.ActionAsked? && (x.action.EndsRound? || x.action.Consumed?) then [PleaOf(x.call)] else []
  }

  /** What an action that ends the round has the user say, if it is not blank. */
  function EndingIn(x: Exchange): seq<string> {
    if x.ActionAsked? && x.action.EndsRound? && Trim(x.action.userText) != "" then [x.action.userText] else []
  }

  function AssistantIn(e: H.HistoryEntry): seq<string> {
    if e.Assistant? then [e.content] else []
  }

  function UserIn(e: H.HistoryEntry): seq<string> {
    if e.User? then [e.content] else []
  }

  function CallIn(e: H.HistoryEntry): seq<Plea> {
    if e.ToolCall? then [(e.name, e.arguments)] else []
  }

  lemma {:induction false} CallsAreCounted(log: Log)
    ensures |Pick(log, CallIn)| == |CallsIn(log)|
  {
    if log != [] { CallsAreCounted(log[..|log| - 1]); }
  }

  // ---------- the balance ----------

  /**
   * The openings of streams so far; and what is still to be done about them: calls of the model that no action took
   * and that are not recorded, texts of the assistant and of the user that are not in the history.
   */
  datatype Due = Due(tries: seq<Exchange>, pleas: multiset<Plea>, texts: seq<string>, users: seq<string>)

  function Settled(tries: seq<Exchange>): Due {
    Due(tries, multiset{}, [], [])
  }

  /**
   * The balance of a turn. The client sees the text and the reasoning of all streams. Every call of the model was taken
   * by an action, or is recorded with its name and arguments, or is due; every text that is not blank is in the
   * history, in order, or is due. Nothing else is there.
   */
  ghost predicate Owes(t: Story, due: Due) {
    && Pick(t.said, OpeningIn) == due.tries
    && TextShown(t.word) == Pick(due.tries, SpokenIn) && ThoughtShown(t.word) == Pick(due.tries, ReasonedIn)
    && multiset(Pick(due.tries, PleasIn)) == multiset(Pick(t.said, TakenIn)) + multiset(Pick(t.log, CallIn)) + due.pleas
    && Pick(due.tries, SpeechIn) == Pick(t.log, AssistantIn) + due.texts
    && Pick(t.said, EndingIn) == Pick(t.log, UserIn) + due.users
  }

  /** These exchanges, events and entries turn one balance into the other. */
  ghost predicate Pays(due: Due, due': Due, x: seq<Exchange>, w: seq<EventBody>, l: Log) {
    var o := Pick(x, OpeningIn);
    && due'.tries == due.tries + o
    && TextShown(w) == Pick(o, SpokenIn) && ThoughtShown(w) == Pick(o, ReasonedIn)
    && multiset(Pick(o, PleasIn)) + due.pleas == multiset(Pick(x, TakenIn)) + multiset(Pick(l, CallIn)) + due'.pleas
    && due.texts + Pick(o, SpeechIn) == Pick(l, AssistantIn) + due'.texts
    && due.users + Pick(x, EndingIn) == Pick(l, UserIn) + due'.users
  }

  lemma {:induction false} OpeningsAreOpenings(said: seq<Exchange>)
    ensures forall k | 0 <= k < |Pick(said, OpeningIn)| :: Pick(said, OpeningIn)[k].StreamOpened?
  {
    if said != [] { OpeningsAreOpenings(said[..|said| - 1]); }
  }

  lemma OwesLater(t: Story, due: Due, due': Due, x: seq<Exchange>, w: seq<EventBody>, l: Log)
    requires Owes(t, due) && Pays(due, due', x, w, l)
    ensures Owes(Later(t, x, w, l), due')
  {
    var o := Pick(x, OpeningIn);
    PickAppend(t.said, x, OpeningIn);
    ShownAppend(t.word, w);
    PickAppend(due.tries, o, SpokenIn);
    PickAppend(due.tries, o, ReasonedIn);
    PleasLater(t, due, due', x, l);
    TextsLater(t, due, due', x, l);
    UsersLater(t, due, due', x, l);
  }

  lemma PleasLater(t: Story, due: Due, due': Due, x: seq<Exchange>, l: Log)
    requires multiset(Pick(due.tries, PleasIn))
          == multiset(Pick(t.said, TakenIn)) + multiset(Pick(t.log, CallIn)) + due.pleas
    requires multiset(Pick(Pick(x, OpeningIn), PleasIn)) + due.pleas
          == multiset(Pick(x, TakenIn)) + multiset(Pick(l, CallIn)) + due'.pleas
    requires due'.tries == due.tries + Pick(x, OpeningIn)
    ensures multiset(Pick(due'.tries, PleasIn))
         == multiset(Pick(t.said + x, TakenIn)) + multiset(Pick(t.log + l, CallIn)) + due'.pleas
  {
    PickAppend(due.tries, Pick(x, OpeningIn), PleasIn);
    PickAppend(t.said, x, TakenIn);
    PickAppend(t.log, l, CallIn);
    Balance(multiset(Pick(due.tries, PleasIn)), multiset(Pick(Pick(x, OpeningIn), PleasIn)),
            multiset(Pick(t.said, TakenIn)), multiset(Pick(x, TakenIn)),
            multiset(Pick(t.log, CallIn)), multiset(Pick(l, CallIn)), due.pleas, due'.pleas);
  }

  lemma Balance<T>(all: multiset<T>, all': multiset<T>, a: multiset<T>, a': multiset<T>, b: multiset<T>,
                   b': multiset<T>, rest: multiset<T>, rest': multiset<T>)
    requires all == a + b + rest && all' + rest == a' + b' + rest'
    ensures all + all' == (a + a') + (b + b') + rest'
  {
    calc {
      all + all';
      (a + b + rest) + all';
      (a + b) + (all' + rest);
      (a + b) + (a' + b' + rest');
      (a + a') + (b + b') + rest';
    }
  }

  lemma TextsLater(t: Story, due: Due, due': Due, x: seq<Exchange>, l: Log)
    requires Pick(due.tries, SpeechIn) == Pick(t.log, AssistantIn) + due.texts
    requires due.texts + Pick(Pick(x, OpeningIn), SpeechIn) == Pick(l, AssistantIn) + due'.texts
    requires due'.tries == due.tries + Pick(x, OpeningIn)
    ensures Pick(due'.tries, SpeechIn) == Pick(t.log + l, AssistantIn) + due'.texts
  {
    PickAppend(due.tries, Pick(x, OpeningIn), SpeechIn);
    PickAppend(t.log, l, AssistantIn);
    Associative(Pick(t.log, AssistantIn), due.texts, Pick(Pick(x, OpeningIn), SpeechIn));
    Associative(Pick(t.log, AssistantIn), Pick(l, AssistantIn), due'.texts);
  }

  lemma UsersLater(t: Story, due: Due, due': Due, x: seq<Exchange>, l: Log)
    requires Pick(t.said, EndingIn) == Pick(t.log, UserIn) + due.users
    requires due.users + Pick(x, EndingIn) == Pick(l, UserIn) + due'.users
    ensures Pick(t.said + x, EndingIn) == Pick(t.log + l, UserIn) + due'.users
  {
    PickAppend(t.said, x, EndingIn);
    PickAppend(t.log, l, UserIn);
    Associative(Pick(t.log, UserIn), due.users, Pick(x, EndingIn));
    Associative(Pick(t.log, UserIn), Pick(l, UserIn), due'.users);
  }

  /** What is true of a turn that stopped somewhere: nothing is shown or kept that was not said, and in order. */
  ghost predicate Keeps(t: Story, tries: seq<Exchange>) {
    && Pick(t.said, OpeningIn) == tries
    && TextShown(t.word) <= Pick(tries, SpokenIn) && ThoughtShown(t.word) <= Pick(tries, ReasonedIn)
    && multiset(Pick(t.said, TakenIn)) + multiset(Pick(t.log, CallIn)) <= multiset(Pick(tries, PleasIn))
    && Pick(t.log, AssistantIn) <= Pick(tries, SpeechIn) && Pick(t.log, UserIn) <= Pick(t.said, EndingIn)
  }

  /** No text is shown. */
  predicate Deltaless(w: seq<EventBody>) {
    forall b | b in w :: !b.AssistantDelta? && !b.ThinkingDelta?
  }

  /** No stream is opened and no action takes anything. */
  predicate Plain(x: seq<Exchange>) {
    forall i | 0 <= i < |x| :: OpeningIn(x[i]) == [] && TakenIn(x[i]) == [] && EndingIn(x[i]) == []
  }

  lemma PlainPicksNothing(x: seq<Exchange>)
    requires Plain(x)
    ensures Pick(x, OpeningIn) == [] && Pick(x, TakenIn) == [] && Pick(x, EndingIn) == []
  {
    PickNothing(x, OpeningIn);
    PickNothing(x, TakenIn);
    PickNothing(x, EndingIn);
  }

  lemma PlainPays(due: Due, x: seq<Exchange>, w: seq<EventBody>, l: Log)
    requires Plain(x) && Deltaless(w) && forall i | 0 <= i < |l| :: l[i].ToolResult?
    ensures Pays(due, due, x, w, l)
  {
    PlainPicksNothing(x);
    OpenersShowNothing(w);
    PickNothing(l, CallIn);
    PickNothing(l, AssistantIn);
    PickNothing(l, UserIn);
    NothingMore(due.tries);
    NothingMore(due.texts);
    NothingMore(due.users);
  }

  // ---------- why a turn stops ----------

  /** An answer that cancels the turn. */
  predicate Cancels(x: Exchange) {
    match x
    case CancelAsked(cancelled) => cancelled
    case StreamOpened(_, _, stream) => stream == Err(LlmCancelled)
    case PermissionAsked(_, decision) => decision.PermissionCancelled?
    case ActionAsked(_, action) => action.ActionCancelled?
    case _ => false
  }

  /** An answer that makes the turn fail. */
  predicate Fails(x: Exchange) {
    x.ActionAsked? && x.action.ActionFailed?
  }

  predicate Calm(x: seq<Exchange>) {
    forall i | 0 <= i < |x| :: !Cancels(x[i]) && !Fails(x[i])
  }

  lemma CalmAppend(a: seq<Exchange>, b: seq<Exchange>)
    ensures Calm(a + b) <==> Calm(a) && Calm(b)
  {
    assert forall i | 0 <= i < |a| :: (a + b)[i] == a[i];
    assert forall i | 0 <= i < |b| :: (a + b)[|a| + i] == b[i];
  }

  /** No answer but perhaps the last one stops the turn. */
  predicate CalmSoFar(x: seq<Exchange>) {
    x != [] ==> Calm(x[..|x| - 1])
  }

  lemma CalmSoFarAppend(a: seq<Exchange>, b: seq<Exchange>)
    requires Calm(a) && CalmSoFar(b)
    ensures CalmSoFar(a + b)
  {
    if b == [] {
      assert a + b == a;
    } else {
      assert (a + b)[..|a + b| - 1] == a + b[..|b| - 1];
      CalmAppend(a, b[..|b| - 1]);
    }
  }

  predicate Stopping(x: seq<Exchange>) {
    x != [] && (Cancels(x[|x| - 1]) || Fails(x[|x| - 1]))
  }

  lemma CalmEndsCalmly(said: seq<Exchange>)
    requires Calm(said)
    ensures CalmSoFar(said) && !Stopping(said)
  {
  }

  /** A stream that came to its end, with a round that can be acted on. */
  ghost predicate Proper(open: Exchange, config: Config) {
    && open.StreamOpened? && open.stream.Ok? && Ending(open.stream.value).None?
    && WellOrdered(HeardIn(open)) && HeardIn(open) != []
    && |CallsOf(HeardIn(open))| <= config.maxToolCallsPerRound && !Malformed(CallsOf(HeardIn(open)))
  }

  /** The model refused because the context was too large, for the first time in a row: it is asked once more. */
  predicate Retriable(o: seq<Exchange>, i: nat)
    requires i < |o| && forall k | 0 <= k < |o| :: o[k].StreamOpened?
  {
    && o[i].stream.Err? && o[i].stream.error.LlmFailure? && o[i].stream.error.contextRelated
    && (i > 0 ==> o[i - 1].stream.Ok?)
  }

  /**
   * Why a turn stops. An answer that cancels the turn, or makes it fail, is the last one and gives the error. Otherwise
   * the last stream gives it, or the limits, or nobody was listening any more.
   */
  ghost predicate Explains(e: LoopError, said: seq<Exchange>, o: seq<Exchange>, config: Config) {
    && CalmSoFar(said) && (forall k | 0 <= k < |o| :: o[k].StreamOpened?)
    && if Stopping(said) then e == if Fails(said[|said| - 1]) then Action else LoopError.Cancelled
       else match e
         case SemanticEventRejected => true
         case MaxRounds(limit) => limit == config.maxRounds == |o|
         case InvalidConfig => false
         case InvalidSession => false
         case Action => false
         case _ => o != [] && Faults(e, said, o, config)
  }

  /** The fault of the last stream, or of the calls so far. */
  ghost predicate Faults(e: LoopError, said: seq<Exchange>, o: seq<Exchange>, config: Config)
    requires o != [] && forall k | 0 <= k < |o| :: o[k].StreamOpened?
  {
    var last := o[|o| - 1];
    match last.stream
    case Err(error) => e == LoopError.Llm(error) && !Retriable(o, |o| - 1)
    case Ok(items) =>
      match e
      case Cancelled => Ending(items) == Some(ProjectionError.Cancelled)
      case Llm(error) => Ending(items) == Some(ProjectionError.Llm(error))
      case InvalidModelSequence => !WellOrdered(Heard(items))
      case EmptyStream => Heard(items) == []
      case ToolCallLimit(actual, limit) =>
        limit == config.maxToolCallsPerRound && limit < actual == |CallsOf(Heard(items))|
      case InvalidToolCall => Malformed(CallsOf(Heard(items)))
      case NoProgress => Trim(TextOf(Heard(items))) == ""
      case ToolCallBudgetExhausted(actual, limit) =>
        && limit == config.maxToolCallsPerTurn
        && limit < actual == |Pick(o, PleasIn)| - |Pick(said, TakenIn)|
      case _ => false
  }

  // ---------- the turn ----------

  /** Every call that the host is asked to permit is recorded, with its name and arguments. */
  ghost predicate Recorded(said: seq<Exchange>, log: Log) {
    forall x | x in said && x.PermissionNeeded? :: H.ToolCall(x.call.id, x.call.name, x.call.arguments) in log
  }

  lemma RecordedLater(said: seq<Exchange>, log: Log, x: seq<Exchange>, l: Log)
    requires Recorded(said, log)
    requires forall e | e in x && e.PermissionNeeded? ::
      H.ToolCall(e.call.id, e.call.name, e.call.arguments) in log
    ensures Recorded(said + x, log + l)
  {
  }

  /**
   * A turn in good order: every call so far was dealt with lawfully, no answer has stopped the turn, the balance holds,
   * and permission was asked for recorded calls only.
   */
  ghost predicate Good(enabled: bool, t: Story, taken: set<string>, due: Due) {
    Lawful(enabled, t, taken) && Calm(t.said) && Owes(t, due) && Recorded(t.said, t.log)
  }

  /** A turn that stopped: every call was lawful as far as it got, and the conversation says why it stopped. */
  ghost predicate Halting(enabled: bool, t: Story, e: LoopError, tries: seq<Exchange>, config: Config) {
    Obeys(enabled, t) && Keeps(t, tries) && Recorded(t.said, t.log) && Explains(e, t.said, tries, config)
  }

  lemma GoodLater(enabled: bool, t: Story, taken: set<string>, due: Due, taken': set<string>, due': Due,
                  x: seq<Exchange>, w: seq<EventBody>, l: Log)
    requires Good(enabled, t, taken, due) && Lawful(enabled, Later(t, x, w, l), taken')
    requires Calm(x) && Pays(due, due', x, w, l)
    requires forall e | e in x && e.PermissionNeeded? ::
      H.ToolCall(e.call.id, e.call.name, e.call.arguments) in t.log
    ensures Good(enabled, Later(t, x, w, l), taken', due')
  {
    CalmAppend(t.said, x);
    OwesLater(t, due, due', x, w, l);
    RecordedLater(t.said, t.log, x, l);
  }

  lemma AsideAsksNothing(x: seq<Exchange>)
    requires Aside(x, ExchangeOwner)
    ensures forall e | e in x :: !e.PermissionNeeded?
  {
  }

  /** What belongs to no call and costs nothing keeps a turn in good order. */
  lemma GoodAside(enabled: bool, t: Story, taken: set<string>, due: Due, x: seq<Exchange>, w: seq<EventBody>)
    requires Good(enabled, t, taken, due)
    requires Aside(x, ExchangeOwner) && Aside(w, EventOwner) && Calm(x) && Plain(x) && Deltaless(w)
    ensures Good(enabled, Later(t, x, w, []), taken, due)
  {
    LawfulAside(enabled, t, taken, x, w, []);
    PlainPays(due, x, w, []);
    AsideAsksNothing(x);
    GoodLater(enabled, t, taken, due, taken, due, x, w, []);
  }

  lemma StillTheSame(t: Story)
    ensures Later(t, [], [], []) == t
  {
  }

  /** What is appended to the history is paid for. */
  lemma GoodEntry(enabled: bool, t: Story, taken: set<string>, due: Due, due': Due, e: H.HistoryEntry)
    requires Good(enabled, t, taken, due) && Pays(due, due', [], [], [e]) && EntryOwner(e).None?
    ensures Good(enabled, Later(t, [], [], [e]), taken, due')
  {
    LawfulAside(enabled, t, taken, [], [], [e]);
    GoodLater(enabled, t, taken, due, taken, due', [], [], [e]);
  }

  /** The balance after appending an entry. */
  lemma EntryPays(due: Due, due': Due, e: H.HistoryEntry)
    requires due'.tries == due.tries && due.pleas == multiset(CallIn(e)) + due'.pleas
    requires due.texts == AssistantIn(e) + due'.texts && due.users == UserIn(e) + due'.users
    ensures Pays(due, due', [], [], [e])
  {
    PickOne(e, CallIn);
    PickOne(e, AssistantIn);
    PickOne(e, UserIn);
    NothingMore(due.tries);
    NothingMore(due.texts);
    NothingMore(due.users);
  }

  /** A call that was dealt with lawfully keeps a turn in good order. */
  lemma GoodSnoc(enabled: bool, t: Story, taken: set<string>, due: Due, due': Due, id: string,
                 x: seq<Exchange>, w: seq<EventBody>, l: Log)
    requires Good(enabled, t, taken, due) && id !in taken
    requires OnlyAbout(x, ExchangeOwner, id) && OnlyAbout(w, EventOwner, id) && OnlyAbout(l, EntryOwner, id)
    requires LawfulCall(enabled, About(x, ExchangeOwner, id), About(w, EventOwner, id), About(l, EntryOwner, id))
    requires Calm(x) && Pays(due, due', x, w, l)
    requires forall e | e in x && e.PermissionNeeded? ::
      H.ToolCall(e.call.id, e.call.name, e.call.arguments) in t.log
    ensures Good(enabled, Later(t, x, w, l), taken + {id}, due')
  {
    LawfulSnoc(enabled, t, taken, id, x, w, l);
    GoodLater(enabled, t, taken, due, taken + {id}, due', x, w, l);
  }

  lemma KeepsLater(t: Story, due: Due, x: seq<Exchange>, w: seq<EventBody>)
    requires Owes(t, due)
    requires Pick(x, TakenIn) == [] && Pick(x, EndingIn) == []
    requires var o := Pick(x, OpeningIn);
      TextShown(w) <= Pick(o, SpokenIn) && ThoughtShown(w) <= Pick(o, ReasonedIn)
    ensures Keeps(Later(t, x, w, []), due.tries + Pick(x, OpeningIn))
  {
    var o := Pick(x, OpeningIn);
    PickAppend(t.said, x, OpeningIn);
    ShownAppend(t.word, w);
    PickAppend(due.tries, o, SpokenIn);
    PickAppend(due.tries, o, ReasonedIn);
    NothingMore(t.log);
    KeepsEntries(t, due, x, o);
  }

  lemma KeepsEntries(t: Story, due: Due, x: seq<Exchange>, o: seq<Exchange>)
    requires Owes(t, due) && Pick(x, TakenIn) == [] && Pick(x, EndingIn) == []
    ensures multiset(Pick(t.said + x, TakenIn)) + multiset(Pick(t.log, CallIn))
         <= multiset(Pick(due.tries + o, PleasIn))
    ensures Pick(t.log, AssistantIn) <= Pick(due.tries + o, SpeechIn)
    ensures Pick(t.log, UserIn) <= Pick(t.said + x, EndingIn)
  {
    hide SpokenIn, ReasonedIn, PleasIn, SpeechIn, TakenIn, EndingIn, CallIn, AssistantIn, UserIn;
    hide TextShown, ThoughtShown;
    PickAppend(t.said, x, TakenIn);
    PickAppend(t.said, x, EndingIn);
    PickAppend(due.tries, o, PleasIn);
    PickAppend(due.tries, o, SpeechIn);
    NothingMore(Pick(t.said, TakenIn));
    NothingMore(Pick(t.said, EndingIn));
    PartOfAll(multiset(Pick(due.tries, PleasIn)), multiset(Pick(o, PleasIn)), multiset(Pick(t.said, TakenIn)),
              multiset(Pick(t.log, CallIn)), due.pleas);
  }

  lemma PartOfAll<T>(all: multiset<T>, more: multiset<T>, a: multiset<T>, b: multiset<T>, rest: multiset<T>)
    requires all == a + b + rest
    ensures a + b <= all + more
  {
  }

  lemma PlainKeeps(t: Story, due: Due, x: seq<Exchange>, w: seq<EventBody>)
    requires Owes(t, due) && Plain(x) && Deltaless(w)
    ensures Keeps(Later(t, x, w, []), due.tries)
  {
    PlainPicksNothing(x);
    OpenersShowNothing(w);
    NothingMore(due.tries);
    KeepsLater(t, due, x, w);
  }

  lemma AsideHalts(enabled: bool, t: Story, taken: set<string>, x: seq<Exchange>, w: seq<EventBody>)
    requires Lawful(enabled, t, taken) && Recorded(t.said, t.log)
    requires Aside(x, ExchangeOwner) && Aside(w, EventOwner)
    ensures Obeys(enabled, Later(t, x, w, [])) && Recorded(t.said + x, t.log + [])
  {
    LawfulAside(enabled, t, taken, x, w, []);
    LawfulObeys(enabled, Later(t, x, w, []), taken);
    AsideAsksNothing(x);
    RecordedLater(t.said, t.log, x, []);
  }

  /** A turn in good order stops. */
  lemma GoodHalts(enabled: bool, t: Story, taken: set<string>, due: Due, x: seq<Exchange>, w: seq<EventBody>,
                  e: LoopError, config: Config)
    requires Good(enabled, t, taken, due) && Aside(x, ExchangeOwner) && Aside(w, EventOwner)
    requires Plain(x) && Deltaless(w) && Explains(e, t.said + x, due.tries, config)
    ensures Halting(enabled, Later(t, x, w, []), e, due.tries, config)
  {
    AsideHalts(enabled, t, taken, x, w);
    PlainKeeps(t, due, x, w);
  }

  /** A turn in good order stops in a call. */
  lemma CallHalts(enabled: bool, t: Story, taken: set<string>, due: Due, id: string, x: seq<Exchange>,
                  w: seq<EventBody>, e: LoopError, config: Config)
    requires Good(enabled, t, taken, due) && id !in taken
    requires OnlyAbout(x, ExchangeOwner, id) && OnlyAbout(w, EventOwner, id)
    requires LawfulCall(enabled, About(x, ExchangeOwner, id), About(w, EventOwner, id), [])
    requires Plain(x) && Deltaless(w) && Explains(e, t.said + x, due.tries, config)
    requires forall e | e in x && e.PermissionNeeded? ::
      H.ToolCall(e.call.id, e.call.name, e.call.arguments) in t.log
    ensures Halting(enabled, Later(t, x, w, []), e, due.tries, config)
  {
    LawfulSnoc(enabled, t, taken, id, x, w, []);
    LawfulObeys(enabled, Later(t, x, w, []), taken + {id});
    PlainKeeps(t, due, x, w);
    RecordedLater(t.said, t.log, x, []);
  }

  // ---------- the reading of a stream ----------

  lemma ReadingPicks(open: Exchange, cancelled: bool)
    requires open.StreamOpened?
    ensures var x := [open, CancelAsked(cancelled)];
      Pick(x, OpeningIn) == [open] && Pick(x, TakenIn) == [] && Pick(x, EndingIn) == []
  {
    hide Pick;
    PickTwo(open, CancelAsked(cancelled), OpeningIn);
    PickTwo(open, CancelAsked(cancelled), TakenIn);
    PickTwo(open, CancelAsked(cancelled), EndingIn);
  }

  /** What is due once a stream was read. */
  function DueAfter(tries: seq<Exchange>, open: Exchange): Due {
    Due(tries + [open], multiset(PleasIn(open)), SpeechIn(open), [])
  }

  lemma ReadingPays(tries: seq<Exchange>, open: Exchange, w: seq<EventBody>)
    requires open.StreamOpened? && TextShown(w) == SpokenIn(open) && ThoughtShown(w) == ReasonedIn(open)
    ensures Pays(Settled(tries), DueAfter(tries, open), [open, CancelAsked(false)], w, [])
  {
    ReadingPicks(open, false);
    PickOne(open, SpokenIn);
    PickOne(open, ReasonedIn);
    PickOne(open, PleasIn);
    PickOne(open, SpeechIn);
    NothingMore(SpeechIn(open));
  }

  lemma {:induction false} ProjectedIsAside(events: seq<ModelEvent>)
    ensures Aside(Projected(events), EventOwner)
  {
    if events != [] {
      var before, e := events[..|events| - 1], events[|events| - 1];
      ProjectedIsAside(before);
      BodiesAreAside(e, Opened(before), Thinking(before));
    }
  }

  lemma BodiesAreAside(e: ModelEvent, assistant: bool, thinking: bool)
    ensures Aside(EventBodies(e, assistant, thinking), EventOwner)
  {
  }

  lemma RoundIsAside(heard: seq<ModelEvent>, silent: bool)
    ensures Aside(RoundBodies(heard, silent), EventOwner)
  {
    ProjectedIsAside(heard);
  }

  /** The reading of a stream keeps a turn in good order: the client has seen all of it. */
  lemma GoodRead(enabled: bool, t: Story, taken: set<string>, tries: seq<Exchange>, open: Exchange, silent: bool)
    requires Good(enabled, t, taken, Settled(tries)) && open.StreamOpened? && open.stream.Ok?
    ensures Good(enabled, Later(t, [open, CancelAsked(false)], RoundBodies(HeardIn(open), silent), []), taken,
                 DueAfter(tries, open))
  {
    hide Lawful, Owes, Pays, RoundBodies, TextOf, ReasoningOf, HeardIn, DueAfter;
    var x, w := [open, CancelAsked(false)], RoundBodies(HeardIn(open), silent);
    RoundIsAside(HeardIn(open), silent);
    LawfulAside(enabled, t, taken, x, w, []);
    RoundShowsAll(HeardIn(open), silent);
    ReadingPays(tries, open, w);
    GoodOpening(enabled, t, taken, tries, open, w);
  }

  lemma GoodOpening(enabled: bool, t: Story, taken: set<string>, tries: seq<Exchange>, open: Exchange,
                    w: seq<EventBody>)
    requires Good(enabled, t, taken, Settled(tries)) && !Cancels(open) && open.StreamOpened?
    requires Lawful(enabled, Later(t, [open, CancelAsked(false)], w, []), taken)
    requires Pays(Settled(tries), DueAfter(tries, open), [open, CancelAsked(false)], w, [])
    ensures Good(enabled, Later(t, [open, CancelAsked(false)], w, []), taken, DueAfter(tries, open))
  {
    hide Good, Lawful, Owes, Pays, DueAfter;
    NothingIsAside(t, open);
    AsideAsksNothing([open, CancelAsked(false)]);
    GoodLater(enabled, t, taken, Settled(tries), taken, DueAfter(tries, open), [open, CancelAsked(false)], w, []);
  }

  lemma RefusedSaysNothing(open: Exchange)
    requires open.StreamOpened? && open.stream.Err?
    ensures SpokenIn(open) == "" && ReasonedIn(open) == "" && SpeechIn(open) == [] && PleasIn(open) == []
  {
  }

  /** A refusal of the model leaves nothing to do. */
  lemma GoodRefused(enabled: bool, t: Story, taken: set<string>, tries: seq<Exchange>, open: Exchange)
    requires Good(enabled, t, taken, Settled(tries))
    requires open.StreamOpened? && open.stream.Err? && open.stream.error.LlmFailure?
    ensures Good(enabled, Later(t, [open, CancelAsked(false)], [], []), taken, Settled(tries + [open]))
  {
    hide Lawful, Owes, Pays;
    var x := [open, CancelAsked(false)];
    RefusedSaysNothing(open);
    OpenersShowNothing([]);
    ReadingPays(tries, open, []);
    NothingIsAside(t, open);
    LawfulAside(enabled, t, taken, x, [], []);
    GoodOpening(enabled, t, taken, tries, open, []);
  }

  lemma NothingIsAside(t: Story, open: Exchange)
    requires open.StreamOpened? && !Cancels(open)
    ensures Aside([open, CancelAsked(false)], ExchangeOwner) && Calm([open, CancelAsked(false)])
    ensures Aside([], EventOwner) && Aside([], EntryOwner)
  {
  }

  lemma ReadKeeps(t: Story, tries: seq<Exchange>, open: Exchange, x: seq<Exchange>, w: seq<EventBody>)
    requires Owes(t, Settled(tries)) && open.StreamOpened?
    requires x == [open] || exists cancelled :: x == [open, CancelAsked(cancelled)]
    requires TextShown(w) <= SpokenIn(open) && ThoughtShown(w) <= ReasonedIn(open)
    ensures Keeps(Later(t, x, w, []), tries + [open])
  {
    hide Keeps, Owes, SpokenIn, ReasonedIn, Pick, TextShown, ThoughtShown;
    if x == [open] {
      PickOne(open, OpeningIn);
      PickOne(open, TakenIn);
      PickOne(open, EndingIn);
    } else {
      ReadingPicks(open, x[1].cancelled);
    }
    PickOne(open, SpokenIn);
    PickOne(open, ReasonedIn);
    KeepsLater(t, Settled(tries), x, w);
  }

  /** The turn stops with the reading of a stream. The client has seen a beginning of it. */
  lemma ReadHalts(enabled: bool, t: Story, taken: set<string>, tries: seq<Exchange>, open: Exchange,
                  x: seq<Exchange>, w: seq<EventBody>, e: LoopError, config: Config)
    requires Good(enabled, t, taken, Settled(tries)) && open.StreamOpened? && Aside(w, EventOwner)
    requires x == [open] || exists cancelled :: x == [open, CancelAsked(cancelled)]
    requires TextShown(w) <= SpokenIn(open) && ThoughtShown(w) <= ReasonedIn(open)
    requires Explains(e, t.said + x, tries + [open], config)
    ensures Halting(enabled, Later(t, x, w, []), e, tries + [open], config)
  {
    assert Aside(x, ExchangeOwner);
    AsideHalts(enabled, t, taken, x, w);
    ReadKeeps(t, tries, open, x, w);
  }

  // ---------- what the model is shown ----------

  /**
   * The model is asked with the end of a history in which everything it said so far is recorded and every call has its
   * result, and which was compacted.
   */
  ghost predicate Prompted(open: Exchange, earlier: seq<Exchange>)
    requires open.StreamOpened?
  {
    && Recent(open.messages, open.log) && C.Small(open.messages, COMPACTION_THRESHOLD_CHARS, IsUser, TextSize)
    && Pick(open.log, AssistantIn) == Pick(earlier, SpeechIn)
    && Firsts(CallsIn(open.log)) == Firsts(ResultsIn(open.log))
  }

  /** The next stream may be opened on these messages: the last round went well, or a smaller context is tried. */
  ghost predicate MayAsk(o: seq<Exchange>, i: nat, messages: seq<H.Message>, config: Config)
    requires i <= |o| && forall k | 0 <= k < |o| :: o[k].StreamOpened?
  {
    || i == 0 || Proper(o[i - 1], config)
    || (Retriable(o, i - 1) && C.Small(messages, EMERGENCY_COMPACTION_CHARS, IsUser, TextSize))
  }

  ghost predicate TryIsFine(o: seq<Exchange>, i: nat, log: Log, config: Config)
    requires i < |o| && forall k | 0 <= k < |o| :: o[k].StreamOpened?
  {
    Prompted(o[i], o[..i]) && o[i].log <= log && MayAsk(o, i, o[i].messages, config)
  }

  /** Every opening of a stream is in order. */
  ghost predicate Tried(o: seq<Exchange>, log: Log, config: Config) {
    && |o| <= config.maxRounds && (forall i | 0 <= i < |o| :: o[i].StreamOpened?)
    && forall i | 0 <= i < |o| :: TryIsFine(o, i, log, config)
  }

  lemma TriedSnoc(o: seq<Exchange>, open: Exchange, log: Log, config: Config)
    requires Tried(o, log, config) && |o| < config.maxRounds && open.StreamOpened?
    requires Prompted(open, o) && open.log == log && MayAsk(o, |o|, open.messages, config)
    ensures Tried(o + [open], log, config)
  {
    forall i | 0 <= i < |o|
      ensures TryIsFine(o + [open], i, log, config)
    {
      assert TryIsFine(o, i, log, config);
      OlderTryIsFine(o, open, i, log, config);
    }
    assert (o + [open])[..|o|] == o;
    MayAskLater(o, open, |o|, open.messages, config);
  }

  lemma OlderTryIsFine(o: seq<Exchange>, open: Exchange, i: nat, log: Log, config: Config)
    requires i < |o| && (forall k | 0 <= k < |o| :: o[k].StreamOpened?) && open.StreamOpened?
    requires TryIsFine(o, i, log, config)
    ensures TryIsFine(o + [open], i, log, config)
  {
    assert (o + [open])[..i] == o[..i];
    MayAskLater(o, open, i, o[i].messages, config);
  }

  lemma MayAskLater(o: seq<Exchange>, open: Exchange, i: nat, messages: seq<H.Message>, config: Config)
    requires i <= |o| && (forall k | 0 <= k < |o| :: o[k].StreamOpened?) && open.StreamOpened?
    requires MayAsk(o, i, messages, config)
    ensures MayAsk(o + [open], i, messages, config)
  {
    if i > 0 { assert (o + [open])[i - 1] == o[i - 1] && (i > 1 ==> (o + [open])[i - 2] == o[i - 2]); }
  }

  lemma TriedLater(o: seq<Exchange>, log: Log, log': Log, config: Config)
    requires Tried(o, log, config) && log <= log'
    ensures Tried(o, log', config)
  {
    forall i | 0 <= i < |o|
      ensures TryIsFine(o, i, log', config)
    {
      assert TryIsFine(o, i, log, config);
    }
  }

  /**
   * A completed turn kept its word: every call was dealt with lawfully and nothing is due. It returned what the last
   * stream said, which is what the client saw last, and it took one round for each stream that was opened.
   */
  ghost predicate Fulfilled(enabled: bool, t: Story, outcome: Outcome, config: Config) {
    var tries := Pick(t.said, OpeningIn);
    && Obeys(enabled, t) && Calm(t.said) && Recorded(t.said, t.log) && Owes(t, Settled(tries))
    && Tried(tries, t.log, config) && tries != [] && Proper(tries[|tries| - 1], config)
    && outcome.output == SpokenIn(tries[|tries| - 1]) == LastSaid(t.word) && outcome.rounds == |tries|
  }

  lemma {:induction false} GoodMore(enabled: bool, t: Story, taken: set<string>, more: set<string>, due: Due)
    requires Good(enabled, t, taken, due) && taken <= more
    ensures Good(enabled, t, more, due)
  {
    hide Owes, LawfulCall;
    forall id
      ensures LawfulAt(enabled, t, more, id)
    {
      assert LawfulAt(enabled, t, taken, id);
      if id !in taken { NothingIsLawful(enabled); }
    }
  }

  /** A turn in good order that stops where it stands. */
  lemma StopFalls(enabled: bool, t: Story, taken: set<string>, due: Due, cap: seq<EventBody>, e: LoopError,
                  config: Config)
    requires Good(enabled, t, taken, due) && Aside(cap, EventOwner) && Deltaless(cap)
    requires Explains(e, t.said, due.tries, config)
    ensures Halting(enabled, Story(t.said, t.word + cap, t.log), e, due.tries, config)
  {
    hide Good, Halting, Explains;
    NothingMore(t.said);
    NothingMore(t.log);
    GoodHalts(enabled, t, taken, due, [], cap, e, config);
  }

  /** Asking whether the turn was cancelled: it goes on, or stops. */
  lemma CancelPasses(enabled: bool, t: Story, taken: set<string>, due: Due)
    requires Good(enabled, t, taken, due)
    ensures Good(enabled, Story(t.said + [CancelAsked(false)], t.word, t.log), taken, due)
  {
    hide Good;
    NothingMore(t.word);
    NothingMore(t.log);
    GoodAside(enabled, t, taken, due, [CancelAsked(false)], []);
  }

  lemma CancelFalls(enabled: bool, t: Story, taken: set<string>, due: Due, cap: seq<EventBody>, config: Config)
    requires Good(enabled, t, taken, due) && Aside(cap, EventOwner) && Deltaless(cap)
    ensures Halting(enabled, Story(t.said + [CancelAsked(true)], t.word + cap, t.log), LoopError.Cancelled, due.tries,
                    config)
  {
    hide Lawful, Owes, Halting;
    NothingMore(t.log);
    CancelIsExplained(t, due, config);
    GoodHalts(enabled, t, taken, due, [CancelAsked(true)], cap, LoopError.Cancelled, config);
  }

  lemma CancelIsExplained(t: Story, due: Due, config: Config)
    requires Calm(t.said) && Owes(t, due)
    ensures Explains(LoopError.Cancelled, t.said + [CancelAsked(true)], due.tries, config)
  {
    OpeningsAreOpenings(t.said);
    CalmSoFarAppend(t.said, [CancelAsked(true)]);
  }
}
