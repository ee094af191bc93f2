/** What the host may rely on: how its answers show in the events and in the history of a turn. */
module Conduct {
  import opened Prelude
  import opened Events
  import opened Text
  import H = History
  import opened Json
  import opened ModelProjection
  import opened Hosts

  /** The story of a turn so far: the conversation with the host, the published word and the appended entries. */
  datatype Story = Story(said: seq<Exchange>, word: seq<EventBody>, log: seq<H.HistoryEntry>)

  // ---------- what belongs to a call ----------

  function ExchangeOwner(x: Exchange): Option<string> {
    if x.CancelAsked? || x.StreamOpened? || x.SupportAsked? then None else Some(x.call.id)
  }

  function EventOwner(b: EventBody): Option<string> {
    if b.ToolCallRequested? || b.PermissionRequested? || b.ToolExecutionStarted? || b.ToolResultReceived?
    then Some(b.id) else None
  }

  /** Results; the call itself is appended before anything is done with it. */
  function EntryOwner(e: H.HistoryEntry): Option<string> {
    if e.ToolResult? then Some(e.id) else None
  }

  /** The items of a list that belong to a call. */
  function About<T>(items: seq<T>, owner: T -> Option<string>, id: string): seq<T> {
    if items == [] then []
    else
      var last := items[|items| - 1];
      About(items[..|items| - 1], owner, id) + if owner(last) == Some(id) then [last] else []
  }

  lemma {:induction false} AboutAppend<T>(a: seq<T>, b: seq<T>, owner: T -> Option<string>, id: string)
    ensures About(a + b, owner, id) == About(a, owner, id) + About(b, owner, id)
  {
    if b == [] {
      assert a + b == a && About(a, owner, id) + [] == About(a, owner, id);
    } else {
      var n := |b| - 1;
      assert (a + b)[..|a| + n] == a + b[..n];
      AboutAppend(a, b[..n], owner, id);
      Associative(About(a, owner, id), About(b[..n], owner, id), if owner(b[n]) == Some(id) then [b[n]] else []);
    }
  }

  /** All items belong to this call, or to none. */
  predicate OnlyAbout<T>(items: seq<T>, owner: T -> Option<string>, id: string) {
    forall i | 0 <= i < |items| :: owner(items[i]).None? || owner(items[i]) == Some(id)
  }

  /** No item belongs to a call. */
  predicate Aside<T>(items: seq<T>, owner: T -> Option<string>) {
    forall i | 0 <= i < |items| :: owner(items[i]).None?
  }

  lemma {:induction false} OthersUntouched<T>(items: seq<T>, owner: T -> Option<string>, id: string, other: string)
    requires OnlyAbout(items, owner, id) && other != id
    ensures About(items, owner, other) == []
  {
    if items != [] { OthersUntouched(items[..|items| - 1], owner, id, other); }
  }

  lemma {:induction false} AsideUntouched<T>(items: seq<T>, owner: T -> Option<string>, id: string)
    requires Aside(items, owner)
    ensures About(items, owner, id) == []
  {
    if items != [] { AsideUntouched(items[..|items| - 1], owner, id); }
  }

  // ---------- the law of one call ----------

  ghost predicate Allowed(x: seq<Exchange>) {
    exists e :: e in x && e.PermissionAsked? && e.decision.Allow?
  }

  ghost predicate Refused(x: seq<Exchange>) {
    exists e :: e in x && e.PermissionAsked? && e.decision.Reject?
  }

  /** The call may be executed: no permission was needed, or it was asked for and given. */
  ghost predicate Cleared(x: seq<Exchange>) {
    Allowed(x) || exists e :: e in x && e.PermissionNeeded? && !e.needed
  }

  ghost predicate Used(x: seq<Exchange>) {
    exists e :: e in x && e.ToolAsked?
  }

  ghost predicate Started(w: seq<EventBody>) {
    exists b :: b in w && b.ToolExecutionStarted?
  }

  /** The call has a result, in the word or in the history. */
  ghost predicate Answered(w: seq<EventBody>, got: seq<H.HistoryEntry>) {
    got != [] || exists b :: b in w && b.ToolResultReceived?
  }

  /** Every result of the call, in the word and in the history, is this one. */
  predicate AnsweredBy(w: seq<EventBody>, got: seq<H.HistoryEntry>, content: string, isOk: bool) {
    && (forall b | b in w && b.ToolResultReceived? :: b.result == content)
    && (forall e | e in got && e.ToolResult? :: e.content == content && e.isOk == isOk)
  }

  /** The results of the call are shown like this. */
  predicate PicturedBy(w: seq<EventBody>, ui: Option<ToolUi>) {
    forall b | b in w && b.ToolResultReceived? :: b.ui == ui
  }

  function FailedUi(ui: Option<ToolUi>): Option<ToolUi> {
    ui.Map((u: ToolUi) => u.(status := UiFailed))
  }

  function RunningUi(ui: Option<ToolUi>): Option<ToolUi> {
    ui.Map((u: ToolUi) => u.(status := UiRunning))
  }

  function DisabledMessage(name: string): string {
    "tool execution disabled for session: " + name
  }

  /** A call whose permission was refused is not executed, and the refusal is its result. */
  ghost predicate RefusalStands(x: seq<Exchange>, w: seq<EventBody>, got: seq<H.HistoryEntry>) {
    forall e | e in x && e.PermissionAsked? && e.decision.Reject? ::
      && !Started(w) && !Used(x) && !Cleared(x) && AnsweredBy(w, got, e.decision.message, false)
      && forall u | u in x && u.UiAsked? :: PicturedBy(w, FailedUi(u.ui))
  }

  /** A tool is asked only if tools are enabled and the call is cleared, and its answer is the result. */
  ghost predicate ToolDecides(enabled: bool, x: seq<Exchange>, w: seq<EventBody>, got: seq<H.HistoryEntry>) {
    forall e | e in x && e.ToolAsked? ::
      enabled && Cleared(x) && AnsweredBy(w, got, e.answer.content, e.answer.isOk) && PicturedBy(w, e.answer.ui)
  }

  /** A result without a refusal and without the answer of a tool says that there are no tools, and there are none. */
  ghost predicate DisabledIsSaid(enabled: bool, x: seq<Exchange>, w: seq<EventBody>, got: seq<H.HistoryEntry>) {
    Answered(w, got) && !Refused(x) && !Used(x) ==>
      && (!enabled || exists e :: e in x && e.ToolsSought? && !e.any)
      && forall u | u in x && u.UiAsked? ::
           AnsweredBy(w, got, DisabledMessage(u.call.name), false) && PicturedBy(w, FailedUi(u.ui))
  }

  /** A call is executed only if it was cleared, and answered only if it was cleared or refused. */
  ghost predicate ClearedFirst(x: seq<Exchange>, w: seq<EventBody>, got: seq<H.HistoryEntry>) {
    (Started(w) ==> Cleared(x)) && (Answered(w, got) ==> Cleared(x) || Refused(x))
  }

  /** Whether permission is needed is asked once; permission is asked for only where it is needed, and announced. */
  ghost predicate AskedOnce(x: seq<Exchange>, w: seq<EventBody>) {
    && (forall e, f | e in x && f in x && e.PermissionNeeded? && f.PermissionNeeded? :: e == f)
    && (forall e | e in x && e.PermissionAsked? ::
         PermissionNeeded(e.call, true) in x && PermissionRequested(e.call.id) in w)
  }

  ghost predicate Weighed(x: seq<Exchange>) {
    exists e :: e in x && e.PermissionNeeded?
  }

  /** The whole conversation is about one call. */
  ghost predicate OneCall(x: seq<Exchange>) {
    forall e, f | e in x && f in x && ExchangeOwner(e).Some? && ExchangeOwner(f).Some? :: e.call == f.call
  }

  /** The call is shown under its name: as it is, as failed if it is given up at once, as running when executed. */
  ghost predicate ShownTruly(x: seq<Exchange>, w: seq<EventBody>) {
    forall b, u | b in w && u in x && u.UiAsked? ::
      && (b.ToolCallRequested? ==> b.name == u.call.name && b.ui == if Weighed(x) then u.ui else FailedUi(u.ui))
      && (b.ToolExecutionStarted? ==> b.ui == RunningUi(u.ui))
  }

  /**
   * How the answers about one call, `x`, show in its events `w` and in its results `got`. An action that takes the
   * call leaves nothing else to do.
   */
  ghost predicate LawfulCall(enabled: bool, x: seq<Exchange>, w: seq<EventBody>, got: seq<H.HistoryEntry>) {
    && RefusalStands(x, w, got) && ToolDecides(enabled, x, w, got) && DisabledIsSaid(enabled, x, w, got)
    && ClearedFirst(x, w, got) && AskedOnce(x, w) && OneCall(x) && ShownTruly(x, w)
    && (forall e | e in x && e.ActionAsked? :: w == [] && got == [] && |x| == 1)
  }

  lemma NothingIsLawful(enabled: bool)
    ensures LawfulCall(enabled, [], [], [])
  {
  }

  // ---------- the law of a turn ----------

  /** A call that was dealt with was dealt with lawfully; nothing is known of the others. */
  ghost predicate LawfulAt(enabled: bool, t: Story, taken: set<string>, id: string) {
    var x, w := About(t.said, ExchangeOwner, id), About(t.word, EventOwner, id);
    var got := About(t.log, EntryOwner, id);
    if id in taken then LawfulCall(enabled, x, w, got) else x == [] && w == [] && got == []
  }

  ghost predicate Lawful(enabled: bool, t: Story, taken: set<string>) {
    forall id :: LawfulAt(enabled, t, taken, id)
  }

  /** Every call was dealt with lawfully, as far as it got. */
  ghost predicate Obeys(enabled: bool, t: Story) {
    forall id :: LawfulCall(enabled, About(t.said, ExchangeOwner, id), About(t.word, EventOwner, id),
                            About(t.log, EntryOwner, id))
  }

  lemma LawfulObeys(enabled: bool, t: Story, taken: set<string>)
    requires Lawful(enabled, t, taken)
    ensures Obeys(enabled, t)
  {
    forall id
      ensures LawfulCall(enabled, About(t.said, ExchangeOwner, id), About(t.word, EventOwner, id),
                         About(t.log, EntryOwner, id))
    {
      assert LawfulAt(enabled, t, taken, id);
      if id !in taken { NothingIsLawful(enabled); }
    }
  }

  function Later(t: Story, x: seq<Exchange>, w: seq<EventBody>, l: seq<H.HistoryEntry>): Story {
    Story(t.said + x, t.word + w, t.log + l)
  }

  lemma AboutLater(t: Story, x: seq<Exchange>, w: seq<EventBody>, l: seq<H.HistoryEntry>, id: string)
    ensures var t' := Later(t, x, w, l);
      && About(t'.said, ExchangeOwner, id) == About(t.said, ExchangeOwner, id) + About(x, ExchangeOwner, id)
      && About(t'.word, EventOwner, id) == About(t.word, EventOwner, id) + About(w, EventOwner, id)
      && About(t'.log, EntryOwner, id) == About(t.log, EntryOwner, id) + About(l, EntryOwner, id)
  {
    AboutAppend(t.said, x, ExchangeOwner, id);
    AboutAppend(t.word, w, EventOwner, id);
    AboutAppend(t.log, l, EntryOwner, id);
  }

  /** What belongs to no call changes nothing. */
  lemma LawfulAside(enabled: bool, t: Story, taken: set<string>, x: seq<Exchange>, w: seq<EventBody>,
                    l: seq<H.HistoryEntry>)
    requires Lawful(enabled, t, taken)
    requires Aside(x, ExchangeOwner) && Aside(w, EventOwner) && Aside(l, EntryOwner)
    ensures Lawful(enabled, Later(t, x, w, l), taken)
  {
    forall id
      ensures LawfulAt(enabled, Later(t, x, w, l), taken, id)
    {
      assert LawfulAt(enabled, t, taken, id);
      AboutLater(t, x, w, l, id);
      AsideUntouched(x, ExchangeOwner, id);
      AsideUntouched(w, EventOwner, id);
      AsideUntouched(l, EntryOwner, id);
      NothingMore(About(t.said, ExchangeOwner, id));
      NothingMore(About(t.word, EventOwner, id));
      NothingMore(About(t.log, EntryOwner, id));
    }
  }

  lemma NothingMore<T>(items: seq<T>)
    ensures items + [] == items && [] + items == items
  {
  }

  /** A new call is dealt with. */
  lemma LawfulSnoc(enabled: bool, t: Story, taken: set<string>, id: string, x: seq<Exchange>, w: seq<EventBody>,
                   l: seq<H.HistoryEntry>)
    requires Lawful(enabled, t, taken) && id !in taken
    requires OnlyAbout(x, ExchangeOwner, id) && OnlyAbout(w, EventOwner, id) && OnlyAbout(l, EntryOwner, id)
    requires LawfulCall(enabled, About(x, ExchangeOwner, id), About(w, EventOwner, id), About(l, EntryOwner, id))
    ensures Lawful(enabled, Later(t, x, w, l), taken + {id})
  {
    forall other
      ensures LawfulAt(enabled, Later(t, x, w, l), taken + {id}, other)
    {
      assert LawfulAt(enabled, t, taken, other);
      AboutLater(t, x, w, l, other);
      if other == id {
        NothingMore(About(x, ExchangeOwner, id));
        NothingMore(About(w, EventOwner, id));
        NothingMore(About(l, EntryOwner, id));
      } else {
        OthersUntouched(x, ExchangeOwner, id, other);
        OthersUntouched(w, EventOwner, id, other);
        OthersUntouched(l, EntryOwner, id, other);
        NothingMore(About(t.said, ExchangeOwner, other));
        NothingMore(About(t.word, EventOwner, other));
        NothingMore(About(t.log, EntryOwner, other));
      }
    }
  }

  // ---------- the course of one call ----------

  /** How a call that was requested goes on: with permission refused, towards execution, or not at all. */
  datatype Permit = Granted(asked: bool) | Denied(message: string) | Withdrawn | Unasked

  /** What the tools had to say: they are disabled, there are none, or one was asked. */
  datatype Use = Disabled | NoTools | Tool(answer: ToolAnswer)

  function Asking(call: PendingToolCall, p: Permit): seq<Exchange> {
    match p
    case Granted(asked) =>
      [PermissionNeeded(call, asked)] + if asked then [PermissionAsked(call, Allow)] else []
    case Denied(message) => [PermissionNeeded(call, true), PermissionAsked(call, Reject(message))]
    case Withdrawn => [PermissionNeeded(call, true), PermissionAsked(call, PermissionCancelled)]
    case Unasked => [PermissionNeeded(call, true)]
  }

  function Announced(id: ToolCallId, p: Permit): seq<EventBody> {
    if p == Granted(false) || p.Unasked? then [] else [PermissionRequested(id)]
  }

  function Using(call: PendingToolCall, use: Use): seq<Exchange> {
    match use
    case Disabled => []
    case NoTools => [ToolsSought(call, false)]
    case Tool(answer) => [ToolsSought(call, true), ToolAsked(call, answer)]
  }

  function Reply(call: PendingToolCall, ui: Option<ToolUi>, use: Use): ToolAnswer {
    match use
    case Tool(answer) => answer
    case _ => ToolAnswer(DisabledMessage(call.name), false, FailedUi(ui))
  }

  lemma RequestIsLawful(enabled: bool, call: PendingToolCall, ui: Option<ToolUi>, w: seq<EventBody>)
    requires w == [] || w == [ToolCallRequested(call.id, call.name, FailedUi(ui))]
    ensures LawfulCall(enabled, [UiAsked(call, ui)], w, [])
  {
  }

  lemma ActionIsLawful(enabled: bool, call: PendingToolCall, action: ActionAnswer)
    ensures LawfulCall(enabled, [ActionAsked(call, action)], [], [])
  {
  }

  /** How far a call got: its permission, the use of its tool if it was started, and whether it was answered. */
  datatype Course = Course(call: PendingToolCall, ui: Option<ToolUi>, permit: Permit, use: Option<Use>, done: bool) {
    predicate Valid(enabled: bool) {
      && (use.Some? ==> permit.Granted? && (use.value.Disabled? <==> !enabled))
      && (done ==> use.Some? || permit.Denied?)
    }

    function Decision(): Option<Decision> {
      match permit
      case Granted(asked) => if asked then Some(Allow) else None
      case Denied(message) => Some(Reject(message))
      case Withdrawn => Some(PermissionCancelled)
      case Unasked => None
    }

    function Answer(): ToolAnswer {
      if permit.Denied? then ToolAnswer(permit.message, false, FailedUi(ui))
      else if use.Some? then Reply(call, ui, use.value)
      else ToolAnswer("", false, None)
    }

    function Conversation(): seq<Exchange> {
      [UiAsked(call, ui)] + Asking(call, permit) + if use.Some? then Using(call, use.value) else []
    }

    function Steps(): seq<EventBody> {
      [ToolCallRequested(call.id, call.name, ui)] + Announced(call.id, permit)
      + (if use.Some? then [ToolExecutionStarted(call.id, RunningUi(ui))] else [])
      + (if done then [ToolResultReceived(call.id, Answer().content, Answer().ui)] else [])
    }

    function Results(): seq<H.HistoryEntry> {
      if done then [H.ToolResult(call.id, call.name, Answer().content, Answer().isOk)] else []
    }

    /** The exchanges of the conversation, in any order. */
    ghost predicate Talk(x: seq<Exchange>) {
      && (forall e | e in x ::
           || e == UiAsked(call, ui) || e == PermissionNeeded(call, permit != Granted(false))
           || (Decision().Some? && e == PermissionAsked(call, Decision().value))
           || (use.Some? && !use.value.Disabled? && e == ToolsSought(call, use.value.Tool?))
           || (use.Some? && use.value.Tool? && e == ToolAsked(call, use.value.answer)))
      && UiAsked(call, ui) in x && PermissionNeeded(call, permit != Granted(false)) in x
      && (Decision().Some? ==> PermissionAsked(call, Decision().value) in x)
      && (use.Some? && use.value.NoTools? ==> ToolsSought(call, false) in x)
      && (use.Some? && use.value.Tool? ==> ToolAsked(call, use.value.answer) in x)
    }

    ghost predicate Show(w: seq<EventBody>) {
      && (forall b | b in w ::
           || b == ToolCallRequested(call.id, call.name, ui)
           || b == PermissionRequested(call.id)
           || (use.Some? && b == ToolExecutionStarted(call.id, RunningUi(ui)))
           || (done && b == ToolResultReceived(call.id, Answer().content, Answer().ui)))
      && (Decision().Some? ==> PermissionRequested(call.id) in w)
    }

    lemma Talks()
      requires use.Some? ==> permit.Granted?
      ensures Talk(Conversation())
    {
      var a, b := Asking(call, permit), if use.Some? then Using(call, use.value) else [];
      var x := Conversation();
      assert x[0] == UiAsked(call, ui) && x[1] == PermissionNeeded(call, permit != Granted(false));
      assert Decision().Some? ==> x[2] == PermissionAsked(call, Decision().value);
      assert b != [] ==> x[|x| - 1] == b[|b| - 1];
      assert forall e | e in x :: e == UiAsked(call, ui) || e in a || e in b;
    }

    lemma Shows()
      requires use.Some? ==> permit.Granted?
      ensures Show(Steps())
    {
      assert Decision().Some? ==> Steps()[1] == PermissionRequested(call.id);
    }

    lemma RefusalIsLawful(enabled: bool, x: seq<Exchange>, w: seq<EventBody>)
      requires Valid(enabled) && Talk(x) && Show(w)
      ensures RefusalStands(x, w, Results())
    {
    }

    lemma ClearedIff(x: seq<Exchange>)
      requires Talk(x)
      ensures (Cleared(x) <==> permit.Granted?) && (Refused(x) <==> permit.Denied?)
      ensures Used(x) <==> use.Some? && use.value.Tool?
    {
    }

    lemma ToolIsLawful(enabled: bool, x: seq<Exchange>, w: seq<EventBody>)
      requires Valid(enabled) && Talk(x) && Show(w)
      ensures ToolDecides(enabled, x, w, Results())
    {
      ClearedIff(x);
    }

    lemma DisabledIsLawful(enabled: bool, x: seq<Exchange>, w: seq<EventBody>)
      requires Valid(enabled) && Talk(x) && Show(w)
      ensures DisabledIsSaid(enabled, x, w, Results())
    {
      ClearedIff(x);
    }

    lemma OrderIsLawful(enabled: bool, x: seq<Exchange>, w: seq<EventBody>)
      requires Valid(enabled) && Talk(x) && Show(w)
      ensures ClearedFirst(x, w, Results())
    {
      ClearedIff(x);
    }

    lemma AskingIsLawful(x: seq<Exchange>, w: seq<EventBody>)
      requires Talk(x) && Show(w)
      ensures AskedOnce(x, w)
    {
    }

    lemma ShowingIsLawful(x: seq<Exchange>, w: seq<EventBody>)
      requires Talk(x) && Show(w)
      ensures OneCall(x) && ShownTruly(x, w)
    {
      WeighedIs(x);
    }

    lemma WeighedIs(x: seq<Exchange>)
      requires Talk(x)
      ensures Weighed(x) && forall u | u in x && u.UiAsked? :: u == UiAsked(call, ui)
    {
      assert PermissionNeeded(call, permit != Granted(false)) in x;
    }

    /** Every course of a call is lawful. */
    lemma IsLawful(enabled: bool)
      requires Valid(enabled)
      ensures LawfulCall(enabled, Conversation(), Steps(), Results())
    {
      Talks();
      Shows();
      RefusalIsLawful(enabled, Conversation(), Steps());
      ToolIsLawful(enabled, Conversation(), Steps());
      DisabledIsLawful(enabled, Conversation(), Steps());
      OrderIsLawful(enabled, Conversation(), Steps());
      AskingIsLawful(Conversation(), Steps());
      ShowingIsLawful(Conversation(), Steps());
    }
  }

  lemma {:induction false} AboutAll<T>(items: seq<T>, owner: T -> Option<string>, id: string)
    requires forall i | 0 <= i < |items| :: owner(items[i]) == Some(id)
    ensures About(items, owner, id) == items
  {
    if items != [] {
      AboutAll(items[..|items| - 1], owner, id);
      assert items == items[..|items| - 1] + [items[|items| - 1]];
    }
  }

  lemma AboutThen<T>(items: seq<T>, after: seq<T>, owner: T -> Option<string>, id: string)
    requires (forall i | 0 <= i < |items| :: owner(items[i]) == Some(id)) && Aside(after, owner)
    ensures OnlyAbout(items + after, owner, id) && About(items + after, owner, id) == items
  {
    AboutAppend(items, after, owner, id);
    AsideUntouched(after, owner, id);
    AboutAll(items, owner, id);
    NothingMore(items);
  }

  /** Only what belongs to the call counts. */
  lemma AboutBetween<T>(before: seq<T>, items: seq<T>, after: seq<T>, owner: T -> Option<string>, id: string)
    requires Aside(before, owner) && Aside(after, owner)
    requires forall i | 0 <= i < |items| :: owner(items[i]) == Some(id)
    ensures OnlyAbout(before + items + after, owner, id) && About(before + items + after, owner, id) == items
  {
    AboutAppend(before + items, after, owner, id);
    AboutAppend(before, items, owner, id);
    AsideUntouched(before, owner, id);
    AsideUntouched(after, owner, id);
    AboutAll(items, owner, id);
    NothingMore(items);
  }

  lemma CourseOwns(c: Course)
    ensures forall i | 0 <= i < |c.Conversation()| :: ExchangeOwner(c.Conversation()[i]) == Some(c.call.id)
    ensures forall i | 0 <= i < |c.Steps()| :: EventOwner(c.Steps()[i]) == Some(c.call.id)
    ensures forall i | 0 <= i < |c.Results()| :: EntryOwner(c.Results()[i]) == Some(c.call.id)
  {
  }

  // ---------- what the law means for the whole story ----------

  lemma {:induction false} AboutHas<T>(items: seq<T>, owner: T -> Option<string>, id: string)
    ensures forall i | 0 <= i < |items| && owner(items[i]) == Some(id) :: items[i] in About(items, owner, id)
    ensures forall e | e in About(items, owner, id) :: e in items && owner(e) == Some(id)
  {
    if items != [] {
      var n := |items| - 1;
      AboutHas(items[..n], owner, id);
      assert items == items[..n] + [items[n]];
    }
  }

  lemma StoryAbout(t: Story, id: string)
    ensures forall e | e in t.said && ExchangeOwner(e) == Some(id) :: e in About(t.said, ExchangeOwner, id)
    ensures forall e | e in About(t.said, ExchangeOwner, id) :: e in t.said && ExchangeOwner(e) == Some(id)
    ensures forall b | b in t.word && EventOwner(b) == Some(id) :: b in About(t.word, EventOwner, id)
    ensures forall b | b in About(t.word, EventOwner, id) :: b in t.word && EventOwner(b) == Some(id)
    ensures forall e | e in t.log && EntryOwner(e) == Some(id) :: e in About(t.log, EntryOwner, id)
  {
    AboutHas(t.said, ExchangeOwner, id);
    AboutHas(t.word, EventOwner, id);
    AboutHas(t.log, EntryOwner, id);
  }

  /** A call whose permission was refused is never executed and no tool sees it; the refusal is its result. */
  lemma RefusedCallDoesNotRun(enabled: bool, t: Story, call: PendingToolCall, message: string)
    requires Obeys(enabled, t) && PermissionAsked(call, Reject(message)) in t.said
    ensures forall b | b in t.word && b.ToolExecutionStarted? :: b.id != call.id
    ensures forall e | e in t.said && e.ToolAsked? :: e.call.id != call.id
    ensures forall b | b in t.word && b.ToolResultReceived? && b.id == call.id :: b.result == message
    ensures forall e | e in t.log && e.ToolResult? && e.id == call.id :: e.content == message && !e.isOk
  {
    hide ToolDecides, DisabledIsSaid, ClearedFirst, AskedOnce, OneCall, ShownTruly, Cleared, About;
    StoryAbout(t, call.id);
    assert PermissionAsked(call, Reject(message)) in About(t.said, ExchangeOwner, call.id);
  }

  /** A tool is asked only if tools are enabled and the call needs no permission or has it; its answer is the result. */
  lemma ToolNeedsLeave(enabled: bool, t: Story, call: PendingToolCall, answer: ToolAnswer)
    requires Obeys(enabled, t) && ToolAsked(call, answer) in t.said
    ensures enabled && (PermissionNeeded(call, false) in t.said || PermissionAsked(call, Allow) in t.said)
    ensures forall b | b in t.word && b.ToolResultReceived? && b.id == call.id ::
      b.result == answer.content && b.ui == answer.ui
    ensures forall e | e in t.log && e.ToolResult? && e.id == call.id ::
      e.content == answer.content && e.isOk == answer.isOk
  {
    hide RefusalStands, DisabledIsSaid, ClearedFirst, AskedOnce, ShownTruly, About;
    StoryAbout(t, call.id);
    var x := About(t.said, ExchangeOwner, call.id);
    assert ToolAsked(call, answer) in x;
    assert forall e | e in x :: e.call == call;
  }

  /** The host said that the call needs no permission, or gave it, or refused it. */
  ghost predicate LeaveIsSettled(said: seq<Exchange>, call: PendingToolCall) {
    || PermissionNeeded(call, false) in said || PermissionAsked(call, Allow) in said
    || exists message :: PermissionAsked(call, Reject(message)) in said
  }

  /** No call is executed, and none is answered, before the host said that it may be, or that it may not. */
  lemma NothingRunsUnasked(enabled: bool, t: Story, id: string)
    requires Obeys(enabled, t)
    requires (exists b :: b in t.word && (b.ToolExecutionStarted? || b.ToolResultReceived?) && b.id == id)
          || (exists e :: e in t.log && e.ToolResult? && e.id == id)
    ensures exists call: PendingToolCall :: call.id == id && LeaveIsSettled(t.said, call)
  {
    hide RefusalStands, ToolDecides, DisabledIsSaid, ShownTruly, About;
    StoryAbout(t, id);
    var x, w := About(t.said, ExchangeOwner, id), About(t.word, EventOwner, id);
    assert Started(w) || Answered(w, About(t.log, EntryOwner, id));
    if Allowed(x) {
      var e :| e in x && e.PermissionAsked? && e.decision.Allow?;
      assert e == PermissionAsked(e.call, Allow) && LeaveIsSettled(t.said, e.call);
    } else if Refused(x) {
      var e :| e in x && e.PermissionAsked? && e.decision.Reject?;
      assert e == PermissionAsked(e.call, Reject(e.decision.message)) && LeaveIsSettled(t.said, e.call);
    } else {
      var e :| e in x && e.PermissionNeeded? && !e.needed;
      assert e == PermissionNeeded(e.call, false) && LeaveIsSettled(t.said, e.call);
    }
  }
}
