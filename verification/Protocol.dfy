/** Recognises the textual tool protocol in a model's text: tool calls, tool results and follow-ups. */
module Protocol {
  import opened Prelude
  import opened Text
  import F = Frames
  import R = Reasoning

  datatype Fence = Fence(opening: string, closing: string)

  datatype Markers = Markers(
    results: seq<string>,
    inlineResult: string,
    fences: seq<Fence>,
    inlineCall: string,
    followUp: string,
    assistant: string)
  {
    function Openings(): seq<string> {
      seq(|fences|, i requires 0 <= i < |fences| => fences[i].opening)
    }

    /** The markers of which an incomplete beginning is held back. */
    function Holdable(): seq<string> {
      Openings() + [inlineCall, followUp]
    }
  }

  const MARKERS := Markers(
    ["[Tool result for ", "[Tool result]:", "[tool_result "],
    "[tool_result ",
    [Fence("```tool_call", "```"), Fence("```function_call", "```"), Fence("'''tool_call", "'''")],
    "[tool_call ",
    "<FollowUp",
    "[Assistant]:")

  const MAX_PENDING: nat := 256 * 1024
  const MAX_FOLLOW_UP: nat := 64 * 1024
  const MAX_TOOL_BLOCK: nat := 256 * 1024

  datatype ToolCall = ToolCall(id: string, name: string, arguments: string)

  datatype Event = Text(text: string) | Tool(call: ToolCall)

  /** What the JSON and tag readers make of a text; each may use the next call number. */
  datatype Parsers = Parsers(
    bare: (string, nat) -> Option<(ToolCall, nat)>,
    line: (string, nat) -> Option<(ToolCall, nat)>,
    block: (string, nat) -> Option<(ToolCall, nat)>,
    followUps: (string, nat) -> Option<(seq<ToolCall>, nat)>)

  datatype Mode =
    | Normal
    | IgnoreToolResult(closing: Option<string>)
    | IgnoreInlineToolResult
    | ToolBlock(fence: Fence, body: string, oversized: bool)
    | InlineToolCall

  datatype State = State(mode: Mode, pending: string, atStart: bool, nextId: nat)

  const Initial := State(Normal, "", true, 0)

  /** One step of draining. */
  datatype Stepped = Stepped(state: State, events: seq<Event>, progressed: bool)

  /** Drops the speaker label a model puts before its text. */
  function NormalizeAssistant(ms: Markers, text: string): string {
    var trimmed := TrimStart(text);
    if ms.assistant <= trimmed then TrimStart(trimmed[|ms.assistant|..]) else text
  }

  function Emission(ms: Markers, text: string): seq<Event> {
    if text == "" then [] else [Text(NormalizeAssistant(ms, text))]
  }

  /** Emits the first `n` characters of what is pending. */
  function Say(ms: Markers, s: State, n: nat): Stepped
    requires n <= |s.pending|
  {
    Stepped(s.(pending := s.pending[n..], atStart := false), Emission(ms, s.pending[..n]), true)
  }

  function Enter(s: State, dropped: nat, mode: Mode): Stepped
    requires dropped <= |s.pending|
  {
    Stepped(State(mode, s.pending[dropped..], false, s.nextId), [], true)
  }

  function Stay(s: State): Stepped {
    Stepped(s, [], false)
  }

  function Contains(text: string, pattern: string): bool {
    Find(text, pattern).Some?
  }

  /** The fence that must close before a tool result ends, if its first line opens one. */
  function ResultFence(fences: seq<Fence>, firstLine: string): (closing: Option<string>)
    ensures closing.Some? ==> exists f :: f in fences && closing.value == f.closing
  {
    if fences == [] then None
    else if Contains(firstLine, fences[0].opening) then Some(fences[0].closing)
    else ResultFence(fences[1..], firstLine)
  }

  /** A tool result begins here: its text is ignored. */
  function ResultStep(ms: Markers, s: State, final: bool): Stepped {
    if ms.inlineResult <= s.pending then Enter(s, |ms.inlineResult|, IgnoreInlineToolResult)
    else match IndexOf(s.pending, '\n')
      case None => Stay(if final then s.(pending := "") else s)
      case Some(newline) => Enter(s, newline + 1, IgnoreToolResult(ResultFence(ms.fences, s.pending[..newline])))
  }

  function FenceAt(fences: seq<Fence>, text: string): (f: Option<Fence>)
    ensures f.Some? ==> f.value in fences && f.value.opening <= text
    ensures f.None? ==> forall g | g in fences :: !(g.opening <= text)
  {
    if fences == [] then None
    else if fences[0].opening <= text then Some(fences[0])
    else FenceAt(fences[1..], text)
  }

  function FollowUpStep(ps: Parsers, s: State, final: bool): Stepped {
    match ps.followUps(s.pending, s.nextId)
    case Some((calls, next)) =>
      Stepped(State(s.mode, "", false, next), seq(|calls|, i requires 0 <= i < |calls| => Tool(calls[i])), true)
    case None =>
      if !final && Bytes(s.pending) <= MAX_FOLLOW_UP then Stay(s)
      else Stepped(s.(pending := "", atStart := false), [], true)
  }

  /** At the start of a stream a bare JSON object may be a tool call. */
  function BareCall(ps: Parsers, s: State): Option<(ToolCall, nat)> {
    var trimmed := TrimStart(s.pending);
    if s.atStart && trimmed != "" && trimmed[0] == '{' then ps.bare(trimmed, s.nextId) else None
  }

  /** How much of the end of a text may begin a marker: the fences are looked at first, then each other marker. */
  function FirstFound(text: string, fences: seq<string>, call: string, tag: string): (n: nat)
    ensures n <= |text|
  {
    if R.PartialSuffix(text, fences) > 0 then R.PartialSuffix(text, fences)
    else if R.PartialSuffixLen(text, call) > 0 then R.PartialSuffixLen(text, call)
    else R.PartialSuffixLen(text, tag)
  }

  /** The end of a pending text without any complete marker, when its last `n` characters are held back. */
  function Release(ms: Markers, s: State, n: nat): Stepped
    requires n <= |s.pending|
  {
    if n == |s.pending| then Stay(s)
    else if n == 0 then Say(ms, s, |s.pending|).(progressed := false)
    else Say(ms, s, |s.pending| - n)
  }

  function PlainStep(ms: Markers, s: State): Stepped {
    Release(ms, s, FirstFound(s.pending, ms.Openings(), ms.inlineCall, ms.followUp))
  }

  /** No marker left: a bare call, or text. */
  function TextStep(ms: Markers, ps: Parsers, s: State): Stepped {
    match BareCall(ps, s)
    case Some((call, next)) => Stepped(State(s.mode, "", false, next), [Tool(call)], true)
    case None => PlainStep(ms, s)
  }

  /** The follow-up tag comes after all other markers. */
  function TagStep(ms: Markers, ps: Parsers, s: State, final: bool): Stepped {
    match Find(s.pending, ms.followUp)
    case Some(start) => if start > 0 then Say(ms, s, start) else FollowUpStep(ps, s, final)
    case None => TextStep(ms, ps, s)
  }

  /** The one-line call comes after the fences. */
  function LineStep(ms: Markers, ps: Parsers, s: State, final: bool): Stepped {
    match Find(s.pending, ms.inlineCall)
    case Some(start) =>
      if start > 0 then Say(ms, s, start)
      else if '\n' !in s.pending && !final then Stay(s)
      else Enter(s, |ms.inlineCall|, InlineToolCall)
    case None => TagStep(ms, ps, s, final)
  }

  /** The fences come after the results. */
  function FenceStep(ms: Markers, ps: Parsers, s: State, final: bool): Stepped {
    match R.FindMarker(s.pending, ms.Openings())
    case Some((start, _)) =>
      if start > 0 then Say(ms, s, start)
      else
        (match FenceAt(ms.fences, s.pending)
         case Some(fence) => Enter(s, |fence.opening|, ToolBlock(fence, "", false))
         case None => Stay(s))
    case None => LineStep(ms, ps, s, final)
  }

  /** `drain_normal`: the leftmost result marker is looked for first. */
  function NormalStep(ms: Markers, ps: Parsers, s: State, final: bool): Stepped {
    match R.FindMarker(s.pending, ms.results)
    case Some((start, _)) => if start > 0 then Say(ms, s, start) else ResultStep(ms, s, final)
    case None => FenceStep(ms, ps, s, final)
  }

  function StripSeparator(text: string): string {
    if text != "" && (text[0] == '\n' || text[0] == '\r') then StripSeparator(text[1..]) else text
  }

  function Leave(s: State, pending: string): State {
    s.(mode := Normal, pending := pending)
  }

  function GiveUp(s: State, final: bool): Stepped {
    Stay(if final then Leave(s, "") else s)
  }

  function InlineResultStep(s: State, final: bool): Stepped {
    match IndexOf(s.pending, '\n')
    case Some(newline) => Stepped(Leave(s, s.pending[newline + 1..]), [], true)
    case None => GiveUp(s, final)
  }

  function InlineCallStep(ps: Parsers, s: State, final: bool): Stepped {
    match IndexOf(s.pending, '\n')
    case None => GiveUp(s, final)
    case Some(newline) =>
      var rest := StripSeparator(s.pending[newline + 1..]);
      match ps.line(s.pending[..newline], s.nextId)
      case Some((call, next)) => Stepped(Leave(s, rest).(nextId := next), [Tool(call)], true)
      case None => Stepped(Leave(s, rest), [], true)
  }

  function ResultBodyStep(s: State, closing: Option<string>, final: bool): Stepped {
    match closing
    case None => InlineResultStep(s, final)
    case Some(marker) =>
      if s.pending == marker then Stepped(Leave(s, ""), [], true)
      else match Find(s.pending, "\n" + marker)
        case Some(index) => Stepped(Leave(s, StripSeparator(s.pending[index + 1 + |marker|..])), [], true)
        case None => GiveUp(s, final)
  }

  /** The body of a block without its closing fence so far. */
  function MoreBody(s: State, fence: Fence, body: string, oversized: bool, final: bool): Stepped {
    var grown := body + s.pending;
    var mode :=
      if oversized then ToolBlock(fence, body, true)
      else if Bytes(grown) > MAX_TOOL_BLOCK then ToolBlock(fence, "", true)
      else ToolBlock(fence, grown, false);
    Stay(s.(pending := "", mode := if final then Normal else mode))
  }

  function BlockStep(ps: Parsers, s: State, fence: Fence, body: string, oversized: bool, final: bool): Stepped {
    match Find(s.pending, fence.closing)
    case None => MoreBody(s, fence, body, oversized, final)
    case Some(end) =>
      var rest := StripSeparator(s.pending[end + |fence.closing|..]);
      var parsed: Option<(ToolCall, nat)> :=
        if oversized then None else ps.block(body + s.pending[..end], s.nextId);
      match parsed
      case Some((call, next)) => Stepped(Leave(s, rest).(nextId := next), [Tool(call)], true)
      case None => Stepped(Leave(s, rest), [], true)
  }

  function Step(ms: Markers, ps: Parsers, s: State, final: bool): Stepped {
    match s.mode
    case Normal => NormalStep(ms, ps, s, final)
    case IgnoreToolResult(closing) => ResultBodyStep(s, closing, final)
    case IgnoreInlineToolResult => InlineResultStep(s, final)
    case ToolBlock(fence, body, oversized) => BlockStep(ps, s, fence, body, oversized, final)
    case InlineToolCall => InlineCallStep(ps, s, final)
  }

  // ---------- draining ends ----------

  /** No marker is empty. */
  predicate Proper(ms: Markers) {
    && "" !in ms.results && ms.inlineResult != "" && ms.inlineCall != "" && ms.followUp != ""
    && forall f | f in ms.fences :: f.opening != "" && f.closing != ""
  }

  /** The mode waits for a closing fence that is not empty. */
  predicate Sane(mode: Mode) {
    match mode
    case ToolBlock(fence, _, _) => fence.closing != ""
    case IgnoreToolResult(Some(closing)) => closing != ""
    case _ => true
  }

  lemma StripShrinks(text: string)
    ensures |StripSeparator(text)| <= |text|
  {
  }

  /** A productive step leaves less pending, and every step leaves a mode that can end. */
  predicate Shrinks(s: State, t: Stepped) {
    Sane(t.state.mode) && (t.progressed ==> |t.state.pending| < |s.pending|)
  }

  lemma ResultStepShrinks(ms: Markers, s: State, final: bool)
    requires Proper(ms) && Sane(s.mode)
    ensures Shrinks(s, ResultStep(ms, s, final))
  {
  }

  lemma SayShrinks(ms: Markers, s: State, n: nat)
    requires Sane(s.mode) && 0 < n <= |s.pending|
    ensures Shrinks(s, Say(ms, s, n))
  {
  }

  lemma TextStepShrinks(ms: Markers, ps: Parsers, s: State)
    requires Sane(s.mode)
    ensures Shrinks(s, TextStep(ms, ps, s))
  {
  }

  lemma TagStepShrinks(ms: Markers, ps: Parsers, s: State, final: bool)
    requires Sane(s.mode) && ms.followUp != ""
    ensures Shrinks(s, TagStep(ms, ps, s, final))
  {
    var start := Find(s.pending, ms.followUp);
    if start.None? {
      TextStepShrinks(ms, ps, s);
    } else if start.value > 0 {
      SayShrinks(ms, s, start.value);
    }
  }

  lemma LineStepShrinks(ms: Markers, ps: Parsers, s: State, final: bool)
    requires Sane(s.mode) && ms.followUp != "" && ms.inlineCall != ""
    ensures Shrinks(s, LineStep(ms, ps, s, final))
  {
    var start := Find(s.pending, ms.inlineCall);
    if start.None? {
      TagStepShrinks(ms, ps, s, final);
    } else if start.value > 0 {
      SayShrinks(ms, s, start.value);
    }
  }

  lemma FenceStepShrinks(ms: Markers, ps: Parsers, s: State, final: bool)
    requires Proper(ms) && Sane(s.mode)
    ensures Shrinks(s, FenceStep(ms, ps, s, final))
  {
    var found := R.FindMarker(s.pending, ms.Openings());
    if found.None? {
      LineStepShrinks(ms, ps, s, final);
    } else if found.value.0 > 0 {
      SayShrinks(ms, s, found.value.0);
    }
  }

  lemma BlockStepShrinks(ps: Parsers, s: State, fence: Fence, body: string, oversized: bool, final: bool)
    requires fence.closing != ""
    ensures Shrinks(s, BlockStep(ps, s, fence, body, oversized, final))
  {
    var end := Find(s.pending, fence.closing);
    if end.Some? { StripShrinks(s.pending[end.value + |fence.closing|..]); }
  }

  lemma RestShrinks(text: string, n: nat)
    requires 0 < n <= |text|
    ensures |StripSeparator(text[n..])| < |text|
  {
    StripShrinks(text[n..]);
  }

  lemma FoundFits(text: string, pattern: string, i: nat)
    requires Find(text, pattern) == Some(i)
    ensures i + |pattern| <= |text|
  {
  }

  lemma ClosedResultShrinks(s: State, marker: string, final: bool)
    requires Sane(s.mode) && marker != ""
    ensures Shrinks(s, ResultBodyStep(s, Some(marker), final))
  {
    var index := Find(s.pending, "\n" + marker);
    if index.Some? {
      FoundFits(s.pending, "\n" + marker, index.value);
      RestShrinks(s.pending, index.value + 1 + |marker|);
    }
  }

  lemma ResultBodyStepShrinks(s: State, closing: Option<string>, final: bool)
    requires Sane(s.mode) && (closing.Some? ==> closing.value != "")
    ensures Shrinks(s, ResultBodyStep(s, closing, final))
  {
    if closing.Some? { ClosedResultShrinks(s, closing.value, final); }
  }

  lemma InlineCallStepShrinks(ps: Parsers, s: State, final: bool)
    requires Sane(s.mode)
    ensures Shrinks(s, InlineCallStep(ps, s, final))
  {
    var newline := IndexOf(s.pending, '\n');
    if newline.Some? { StripShrinks(s.pending[newline.value + 1..]); }
  }

  /** Every productive step of draining shrinks what is pending. */
  lemma ProgressShrinks(ms: Markers, ps: Parsers, s: State, final: bool)
    requires Proper(ms) && Sane(s.mode)
    ensures Shrinks(s, Step(ms, ps, s, final))
  {
    hide Proper, ResultStep, FenceStep, BlockStep, ResultBodyStep, InlineCallStep;
    match s.mode {
      case Normal =>
        ResultStepShrinks(ms, s, final);
        FenceStepShrinks(ms, ps, s, final);
      case ToolBlock(fence, body, oversized) => BlockStepShrinks(ps, s, fence, body, oversized, final);
      case IgnoreToolResult(closing) => ResultBodyStepShrinks(s, closing, final);
      case InlineToolCall => InlineCallStepShrinks(ps, s, final);
      case IgnoreInlineToolResult =>
    }
  }

  // ---------- the detector ----------

  /** Every productive step shrinks what is pending. */
  ghost predicate Terminates(step: State -> Stepped) {
    forall s: State | Sane(s.mode) :: Shrinks(s, step(s))
  }

  /** Draining with a step function to the end: the state and the events. */
  ghost function DrainWith(step: State -> Stepped, s: State): (r: (State, seq<Event>))
    requires Terminates(step) && Sane(s.mode)
    ensures Sane(r.0.mode)
    decreases |s.pending|
  {
    var t := step(s);
    assert Shrinks(s, t);
    if !t.progressed then (t.state, t.events)
    else
      var more := DrainWith(step, t.state);
      (more.0, t.events + more.1)
  }

  function Stepper(ms: Markers, ps: Parsers, final: bool): State -> Stepped {
    (s: State) => Step(ms, ps, s, final)
  }

  lemma StepperTerminates(ms: Markers, ps: Parsers, final: bool)
    requires Proper(ms)
    ensures Terminates(Stepper(ms, ps, final))
  {
    forall s: State | Sane(s.mode)
      ensures Shrinks(s, Stepper(ms, ps, final)(s))
    {
      ProgressShrinks(ms, ps, s, final);
    }
  }

  ghost function Drained(ms: Markers, ps: Parsers, s: State, final: bool): (r: (State, seq<Event>))
    requires Proper(ms) && Sane(s.mode)
    ensures Sane(r.0.mode)
  {
    StepperTerminates(ms, ps, final);
    DrainWith(Stepper(ms, ps, final), s)
  }

  /** One chunk; too much pending text is dropped. */
  ghost function Fed(ms: Markers, ps: Parsers, s: State, chunk: string): (r: (State, seq<Event>))
    requires Proper(ms) && Sane(s.mode)
    ensures Sane(r.0.mode)
  {
    if chunk == "" then (s, [])
    else if Bytes(s.pending + chunk) > MAX_PENDING then (Leave(s, ""), [])
    else Drained(ms, ps, s.(pending := s.pending + chunk), false)
  }

  lemma MarkersAreProper()
    ensures Proper(MARKERS)
  {
  }

  class ProtocolDetector {
    const markers: Markers
    const parsers: Parsers
    var mode: Mode
    var pending: string
    var atStart: bool
    var nextId: nat

    function View(): State
      reads this
    {
      State(mode, pending, atStart, nextId)
    }

    ghost predicate Valid()
      reads this
    {
      Proper(markers) && Sane(mode)
    }

    constructor (parsers: Parsers)
      ensures Valid() && View() == Initial && markers == MARKERS && this.parsers == parsers
    {
      MarkersAreProper();
      markers, this.parsers := MARKERS, parsers;
      mode, pending, atStart, nextId := Normal, "", true, 0;
    }

    /** Steps until nothing moves; each productive step shrinks what is pending. */
    method DrainBy(step: State -> Stepped) returns (events: seq<Event>)
      requires Terminates(step) && Sane(mode)
      modifies this
      ensures Sane(mode) && (View(), events) == DrainWith(step, old(View()))
    {
      events := [];
      var progressed := true;
      ghost var whole := DrainWith(step, View());
      assert [] + whole.1 == whole.1;
      while progressed
        invariant Sane(mode)
        invariant progressed ==>
          var rest := DrainWith(step, View()); (rest.0, events + rest.1) == whole
        invariant !progressed ==> (View(), events) == whole
        decreases progressed, |pending|
      {
        var t := step(View());
        assert Shrinks(View(), t);
        if t.progressed { Associative(events, t.events, DrainWith(step, t.state).1); }
        mode, pending, atStart, nextId := t.state.mode, t.state.pending, t.state.atStart, t.state.nextId;
        events, progressed := events + t.events, t.progressed;
      }
    }

    method Drain(final: bool) returns (events: seq<Event>)
      requires Valid()
      modifies this
      ensures Valid() && (View(), events) == Drained(markers, parsers, old(View()), final)
    {
      StepperTerminates(markers, parsers, final);
      events := DrainBy(Stepper(markers, parsers, final));
    }

    method Feed(chunk: string) returns (events: seq<Event>)
      requires Valid()
      modifies this
      ensures Valid() && (View(), events) == Fed(markers, parsers, old(View()), chunk)
    {
      if chunk == "" { return []; }
      pending := pending + chunk;
      if Bytes(pending) > MAX_PENDING {
        pending, mode := "", Normal;
        return [];
      }
      events := Drain(false);
    }

    method Finish() returns (events: seq<Event>)
      requires Valid()
      modifies this
      ensures Valid() && mode == Normal && pending == ""
      ensures events == Drained(markers, parsers, old(View()), true).1
    {
      events := Drain(true);
      mode, pending := Normal, "";
    }
  }

  // ---------- a tool result is never shown as text ----------

  ghost predicate ShowsNoResult(ms: Markers, events: seq<Event>) {
    forall i | 0 <= i < |events| && events[i].Text? :: R.NoneBefore(events[i].text, ms.results, |events[i].text| + 1)
  }

  lemma PrefixHasNoMarker(markers: seq<string>, text: string, n: nat)
    requires n <= |text| && R.NoneBefore(text, markers, n) && "" !in markers
    ensures R.NoneBefore(text[..n], markers, n + 1)
  {
    forall m, q | m in markers && 0 <= q <= n
      ensures !R.At(text[..n], m, q)
    {
      R.AtAppend(text[..n], text[n..], m, q);
      assert text == text[..n] + text[n..];
    }
  }

  lemma {:induction false} TrimStartIsSuffix(text: string) returns (n: nat)
    ensures n <= |text| && TrimStart(text) == text[n..]
  {
    n := 0;
    if text != "" && IsWhitespace(text[0]) {
      n := TrimStartIsSuffix(text[1..]);
      n := n + 1;
    }
  }

  lemma LaterSuffixHasNoMarker(markers: seq<string>, text: string, n: nat)
    requires n <= |text| && R.NoneBefore(text, markers, |text| + 1)
    ensures R.NoneBefore(text[n..], markers, |text[n..]| + 1)
  {
    assert text == text[..n] + text[n..];
    R.SuffixHasNoMarker(markers, text[..n], text[n..]);
  }

  lemma EmissionShowsNoResult(ms: Markers, text: string)
    requires R.NoneBefore(text, ms.results, |text| + 1)
    ensures ShowsNoResult(ms, Emission(ms, text))
  {
    var n := TrimStartIsSuffix(text);
    var trimmed := TrimStart(text);
    if ms.assistant <= trimmed {
      var k := TrimStartIsSuffix(trimmed[|ms.assistant|..]);
      LaterSuffixHasNoMarker(ms.results, text, n + |ms.assistant| + k);
      assert text[n + |ms.assistant| + k..] == NormalizeAssistant(ms, text);
    }
  }

  lemma SayShowsNoResult(ms: Markers, s: State, n: nat)
    requires Proper(ms) && n <= |s.pending| && R.NoneBefore(s.pending, ms.results, n)
    ensures ShowsNoResult(ms, Say(ms, s, n).events)
  {
    PrefixHasNoMarker(ms.results, s.pending, n);
    EmissionShowsNoResult(ms, s.pending[..n]);
  }

  lemma TextStepShowsNoResult(ms: Markers, ps: Parsers, s: State, final: bool)
    requires Proper(ms) && R.NoneBefore(s.pending, ms.results, |s.pending| + 1)
    ensures ShowsNoResult(ms, TagStep(ms, ps, s, final).events)
  {
    var tag := Find(s.pending, ms.followUp);
    if tag.Some? {
      SayShowsNoResult(ms, s, tag.value);
    } else {
      SayShowsNoResult(ms, s, |s.pending| - FirstFound(s.pending, ms.Openings(), ms.inlineCall, ms.followUp));
    }
  }

  lemma FenceStepShowsNoResult(ms: Markers, ps: Parsers, s: State, final: bool)
    requires Proper(ms) && R.NoneBefore(s.pending, ms.results, |s.pending| + 1)
    ensures ShowsNoResult(ms, FenceStep(ms, ps, s, final).events)
  {
    var fence := R.FindMarker(s.pending, ms.Openings());
    var call := Find(s.pending, ms.inlineCall);
    if fence.Some? {
      SayShowsNoResult(ms, s, fence.value.0);
    } else if call.Some? {
      SayShowsNoResult(ms, s, call.value);
    } else {
      TextStepShowsNoResult(ms, ps, s, final);
    }
  }

  lemma NormalStepShowsNoResult(ms: Markers, ps: Parsers, s: State, final: bool)
    requires Proper(ms)
    ensures ShowsNoResult(ms, NormalStep(ms, ps, s, final).events)
  {
    var found := R.FindMarker(s.pending, ms.results);
    if found.Some? {
      SayShowsNoResult(ms, s, found.value.0);
    } else {
      FenceStepShowsNoResult(ms, ps, s, final);
    }
  }

  lemma OtherModesAreSilent(ms: Markers, ps: Parsers, s: State, final: bool)
    requires !s.mode.Normal?
    ensures forall e | e in Step(ms, ps, s, final).events :: e.Tool?
  {
  }

  lemma StepShowsNoResult(ms: Markers, ps: Parsers, s: State, final: bool)
    requires Proper(ms)
    ensures ShowsNoResult(ms, Step(ms, ps, s, final).events)
  {
    if s.mode.Normal? {
      NormalStepShowsNoResult(ms, ps, s, final);
    } else {
      OtherModesAreSilent(ms, ps, s, final);
      ToolsShowNoResult(ms, Step(ms, ps, s, final).events);
    }
  }

  lemma ToolsShowNoResult(ms: Markers, events: seq<Event>)
    requires forall e | e in events :: e.Tool?
    ensures ShowsNoResult(ms, events)
  {
    forall i | 0 <= i < |events|
      ensures events[i].Tool?
    {
      assert events[i] in events;
    }
  }

  lemma {:induction false} DrainShowsNoResult(ms: Markers, step: State -> Stepped, s: State)
    requires Terminates(step) && Sane(s.mode)
    requires forall x: State :: ShowsNoResult(ms, step(x).events)
    ensures ShowsNoResult(ms, DrainWith(step, s).1)
    decreases |s.pending|
  {
    var t := step(s);
    assert Shrinks(s, t);
    if t.progressed { DrainShowsNoResult(ms, step, t.state); }
  }

  /** Whatever is fed in whatever state, no single text event shows a marker of a tool result. */
  lemma ResultsAreNeverShown(ms: Markers, ps: Parsers, s: State, final: bool)
    requires Proper(ms) && Sane(s.mode)
    ensures ShowsNoResult(ms, Drained(ms, ps, s, final).1)
  {
    var step := Stepper(ms, ps, final);
    StepperTerminates(ms, ps, final);
    forall x: State
      ensures ShowsNoResult(ms, step(x).events)
    {
      StepShowsNoResult(ms, ps, x, final);
    }
    DrainShowsNoResult(ms, step, s);
  }

  // ---------- plain text is conserved ----------

  function Texts(events: seq<Event>): string {
    if events == [] then "" else (if events[0].Text? then events[0].text else "") + Texts(events[1..])
  }

  /** No incomplete marker can hide inside another one. */
  predicate Separated(ms: Markers) {
    && (forall f | f in ms.fences :: f.opening != "" && f.opening[0] !in ms.inlineCall && f.opening[0] !in ms.followUp)
    && ms.inlineCall != "" && ms.inlineCall[0] !in ms.followUp && ms.followUp != ""
  }

  lemma MarkersAreSeparated()
    ensures Separated(MARKERS)
  {
    FencesStartWithQuotes();
    NoQuotesInOthers();
  }

  lemma FencesStartWithQuotes()
    ensures forall f | f in MARKERS.fences :: f.opening != "" && f.opening[0] in {'`', '\''}
  {
  }

  lemma NoQuotesInOthers()
    ensures '`' !in MARKERS.inlineCall && '\'' !in MARKERS.inlineCall
    ensures '`' !in MARKERS.followUp && '\'' !in MARKERS.followUp && '[' !in MARKERS.followUp
  {
  }

  function AllMarkers(ms: Markers): seq<string> {
    ms.results + ms.Openings() + [ms.inlineCall, ms.followUp, ms.assistant]
  }

  /** The markers of the program meet what the results below ask of them. */
  lemma ProgramMarkers()
    ensures Proper(MARKERS) && Separated(MARKERS) && "" !in AllMarkers(MARKERS)
  {
    MarkersAreProper();
    MarkersAreSeparated();
    assert forall f | f in MARKERS.fences :: f.opening != "";
    forall m | m in MARKERS.Openings()
      ensures m != ""
    {
      var i :| 0 <= i < |MARKERS.fences| && MARKERS.Openings()[i] == m;
      assert MARKERS.fences[i] in MARKERS.fences;
    }
  }

  /** A text without any complete marker that does not begin with a brace. */
  ghost predicate Plain(ms: Markers, text: string) {
    && R.NoneBefore(text, AllMarkers(ms), |text| + 1)
    && (TrimStart(text) == "" || TrimStart(text)[0] != '{')
  }

  /** The longest end of the text that may begin a marker. */
  function Held(ms: Markers, text: string): string {
    LongestEnd(text, ms.Holdable())
  }

  function LongestEnd(text: string, markers: seq<string>): string {
    End(text, R.PartialSuffix(text, markers))
  }

  function End(text: string, n: nat): string
    requires n <= |text|
  {
    text[|text| - n..]
  }

  lemma NotInside(text: string, a: string, b: string)
    requires EndsWith(text, a) && a != "" && |a| < |b| && a[0] !in b
    ensures !EndsWith(text, b)
  {
  }

  /** Nothing longer than `n` at the end of the text begins the marker. */
  ghost predicate NoneLonger(text: string, marker: string, n: nat) {
    forall k | n < k < |marker| :: !EndsWith(text, marker[..k])
  }

  /** `n` characters at the end of the text begin the marker. */
  predicate Begins(text: string, marker: string, n: nat) {
    n < |marker| && EndsWith(text, marker[..n])
  }

  /** An end that begins one marker, whose first character is not in the other, is longer than any end of the other. */
  lemma OtherIsShorter(text: string, m: string, n: nat, other: string)
    requires n > 0 && Begins(text, m, n) && m[0] !in other
    ensures NoneLonger(text, other, n)
  {
    forall k | n < k < |other|
      ensures !EndsWith(text, other[..k])
    {
      NotInside(text, m[..n], other[..k]);
    }
  }

  /** The length of the longest end that begins one of the markers is unique. */
  lemma LongestIsUnique(text: string, markers: seq<string>, n: nat)
    requires forall m | m in markers :: NoneLonger(text, m, n)
    requires n > 0 ==> exists m :: m in markers && Begins(text, m, n)
    ensures R.PartialSuffix(text, markers) == n
  {
  }

  lemma FenceIsLongest(text: string, fences: seq<string>, call: string, tag: string, all: seq<string>, n: nat)
    requires forall m | m in all :: m in fences || m == call || m == tag
    requires forall m | m in fences :: m in all && m != "" && m[0] !in call && m[0] !in tag
    requires n == R.PartialSuffix(text, fences) && n > 0
    ensures R.PartialSuffix(text, all) == n
  {
    var f :| f in fences && n < |f| && EndsWith(text, f[..n]);
    assert Begins(text, f, n);
    OtherIsShorter(text, f, n, call);
    OtherIsShorter(text, f, n, tag);
    LongestIsUnique(text, all, n);
  }

  lemma CallIsLongest(text: string, fences: seq<string>, call: string, tag: string, all: seq<string>, n: nat)
    requires (forall m | m in all :: m in fences || m == call || m == tag) && call in all
    requires R.PartialSuffix(text, fences) == 0 && call != "" && call[0] !in tag
    requires n == R.PartialSuffixLen(text, call) && n > 0
    ensures R.PartialSuffix(text, all) == n
  {
    OtherIsShorter(text, call, n, tag);
    forall m | m in all
      ensures NoneLonger(text, m, n)
    {
    }
    LongestIsUnique(text, all, n);
  }

  lemma TagIsLongest(text: string, fences: seq<string>, call: string, tag: string, all: seq<string>, n: nat)
    requires (forall m | m in all :: m in fences || m == call || m == tag) && tag in all && tag != ""
    requires R.PartialSuffix(text, fences) == 0 && R.PartialSuffixLen(text, call) == 0
    requires n == R.PartialSuffixLen(text, tag)
    ensures R.PartialSuffix(text, all) == n
  {
  }

  lemma HoldableMembers(ms: Markers)
    requires Separated(ms)
    ensures forall m | m in ms.Holdable() :: m in ms.Openings() || m == ms.inlineCall || m == ms.followUp
    ensures ms.inlineCall in ms.Holdable() && ms.followUp in ms.Holdable()
    ensures forall m | m in ms.Openings() ::
      m in ms.Holdable() && m != "" && m[0] !in ms.inlineCall && m[0] !in ms.followUp
  {
  }

  lemma FirstFoundIsLongest(text: string, fences: seq<string>, call: string, tag: string, all: seq<string>)
    requires (forall m | m in all :: m in fences || m == call || m == tag) && call in all && tag in all
    requires forall m | m in fences :: m in all && m != "" && m[0] !in call && m[0] !in tag
    requires call != "" && call[0] !in tag && tag != ""
    ensures FirstFound(text, fences, call, tag) == R.PartialSuffix(text, all)
  {
    if R.PartialSuffix(text, fences) > 0 {
      FenceIsLongest(text, fences, call, tag, all, R.PartialSuffix(text, fences));
    } else if R.PartialSuffixLen(text, call) > 0 {
      CallIsLongest(text, fences, call, tag, all, R.PartialSuffixLen(text, call));
    } else {
      TagIsLongest(text, fences, call, tag, all, R.PartialSuffixLen(text, tag));
    }
  }

  /** Looking at the fences first and at the others in turn finds the longest held end. */
  lemma PlainStepHoldsLongest(ms: Markers, s: State)
    requires Separated(ms)
    ensures PlainStep(ms, s) == Release(ms, s, |Held(ms, s.pending)|)
  {
    HoldableMembers(ms);
    FirstFoundIsLongest(s.pending, ms.Openings(), ms.inlineCall, ms.followUp, ms.Holdable());
  }

  lemma NoneLongerLater(u: string, chunk: string, n: nat, m: string, p: nat)
    requires n <= |u| && p <= n + |chunk|
    requires NoneLonger(u, m, n) && NoneLonger(End(u, n) + chunk, m, p)
    ensures NoneLonger(u + chunk, m, p)
  {
    forall k | p < k < |m|
      ensures !EndsWith(u + chunk, m[..k])
    {
      EndOfLonger(u, chunk, n, m[..k]);
      if k > n + |chunk| { assert m[..k][..k - |chunk|] == m[..k - |chunk|]; }
    }
  }

  lemma PartialSuffixFacts(text: string, markers: seq<string>)
    ensures var n := R.PartialSuffix(text, markers);
      && (forall m | m in markers :: NoneLonger(text, m, n))
      && (n > 0 ==> exists m :: m in markers && Begins(text, m, n))
  {
  }

  /** What is held after one more chunk depends only on what was held before it. */
  lemma HeldIsEnough(markers: seq<string>, u: string, chunk: string, n: nat)
    requires n == R.PartialSuffix(u, markers)
    ensures R.PartialSuffix(u + chunk, markers) == R.PartialSuffix(End(u, n) + chunk, markers)
  {
    var w := End(u, n) + chunk;
    var p := R.PartialSuffix(w, markers);
    PartialSuffixFacts(u, markers);
    PartialSuffixFacts(w, markers);
    forall m | m in markers
      ensures NoneLonger(u + chunk, m, p)
    {
      NoneLongerLater(u, chunk, n, m, p);
    }
    if p > 0 {
      var m :| m in markers && Begins(w, m, p);
      EndOfLonger(u, chunk, n, m[..p]);
      assert Begins(u + chunk, m, p);
    }
    LongestIsUnique(u + chunk, markers, p);
  }

  /** An end of `u + chunk` is an end of the shorter text, or reaches back beyond it. */
  lemma EndOfLonger(u: string, chunk: string, n: nat, e: string)
    requires n <= |u|
    ensures |e| <= n + |chunk| ==> (EndsWith(u + chunk, e) <==> EndsWith(End(u, n) + chunk, e))
    ensures |e| > n + |chunk| && EndsWith(u + chunk, e) ==> EndsWith(u, e[..|e| - |chunk|])
  {
  }

  lemma AbsentMarkers(text: string, all: seq<string>, some: seq<string>)
    requires R.NoneBefore(text, all, |text| + 1) && forall m | m in some :: m in all
    ensures R.FindMarker(text, some).None?
  {
  }

  lemma AbsentMarker(text: string, all: seq<string>, m: string)
    requires R.NoneBefore(text, all, |text| + 1) && m in all
    ensures Find(text, m).None?
  {
    var i := Find(text, m);
    assert i.Some? ==> R.At(text, m, i.value);
  }

  /** No complete marker in the text. */
  ghost predicate Unmarked(ms: Markers, text: string) {
    R.NoneBefore(text, AllMarkers(ms), |text| + 1)
  }

  lemma MarkerLists(ms: Markers)
    ensures forall m | m in ms.results :: m in AllMarkers(ms)
    ensures forall m | m in ms.Openings() :: m in AllMarkers(ms)
    ensures ms.inlineCall in AllMarkers(ms) && ms.followUp in AllMarkers(ms) && ms.assistant in AllMarkers(ms)
  {
  }

  /** Without a complete marker and a bare call, a step only looks at the end of the text. */
  lemma UnmarkedStep(ms: Markers, ps: Parsers, s: State, final: bool)
    requires s.mode.Normal? && Unmarked(ms, s.pending) && BareCall(ps, s).None?
    ensures Step(ms, ps, s, final) == PlainStep(ms, s)
  {
    MarkerLists(ms);
    AbsentMarkers(s.pending, AllMarkers(ms), ms.results);
    AbsentMarkers(s.pending, AllMarkers(ms), ms.Openings());
    AbsentMarker(s.pending, AllMarkers(ms), ms.inlineCall);
    AbsentMarker(s.pending, AllMarkers(ms), ms.followUp);
  }

  /** A text without the speaker label is emitted as it is. */
  lemma UnmarkedEmission(ms: Markers, text: string)
    requires Unmarked(ms, text)
    ensures Texts(Emission(ms, text)) == text
  {
    MarkerLists(ms);
    var n := TrimStartIsSuffix(text);
    assert ms.assistant <= TrimStart(text) ==> R.At(text, ms.assistant, n);
    assert [Text(text)][1..] == [] && text + "" == text;
  }

  lemma UnmarkedParts(ms: Markers, text: string, n: nat)
    requires n <= |text| && Unmarked(ms, text) && "" !in AllMarkers(ms)
    ensures Unmarked(ms, text[..n]) && Unmarked(ms, text[n..])
  {
    PrefixHasNoMarker(AllMarkers(ms), text, n);
    LaterSuffixHasNoMarker(AllMarkers(ms), text, n);
  }

  lemma EndOfEnd(text: string, markers: seq<string>)
    ensures LongestEnd(LongestEnd(text, markers), markers) == LongestEnd(text, markers)
    ensures R.PartialSuffix(LongestEnd(text, markers), markers) == R.PartialSuffix(text, markers)
  {
  }

  /** What draining an unmarked text does: all of it comes out except for the end that is held. */
  ghost predicate DrainsTo(s: State, held: string, r: (State, seq<Event>)) {
    && r.0.mode.Normal? && r.0.pending == held && r.0.nextId == s.nextId
    && Texts(r.1) + held == s.pending
    && (r.0.atStart ==> s.atStart && held == s.pending)
  }

  lemma DrainStops(step: State -> Stepped, s: State)
    requires Terminates(step) && Sane(s.mode)
    ensures !step(s).progressed ==> DrainWith(step, s) == (step(s).state, step(s).events)
    ensures step(s).progressed && step(step(s).state) == Stay(step(s).state) ==>
      DrainWith(step, s) == (step(s).state, step(s).events)
  {
    var t := step(s);
    assert Shrinks(s, t);
    if t.progressed && step(t.state) == Stay(t.state) { assert t.events + [] == t.events; }
  }

  lemma ReleaseDrains(ms: Markers, s: State, held: string)
    requires s.mode.Normal? && |held| <= |s.pending| && held == s.pending[|s.pending| - |held|..]
    requires var spoken := s.pending[..|s.pending| - |held|]; Texts(Emission(ms, spoken)) == spoken
    ensures var t := Release(ms, s, |held|); DrainsTo(s, held, (t.state, t.events))
  {
  }

  /** Draining with a step that only looks at the end of the text: one emission, then rest. */
  lemma PlainDrain(ms: Markers, step: State -> Stepped, s: State, held: string)
    requires Terminates(step) && s.mode.Normal? && |held| <= |s.pending| && step(s) == Release(ms, s, |held|)
    requires step(s).progressed ==> step(step(s).state) == Stay(step(s).state)
    requires DrainsTo(s, held, (step(s).state, step(s).events))
    ensures DrainsTo(s, held, DrainWith(step, s))
  {
    DrainStops(step, s);
  }

  lemma HeldRests(ms: Markers, ps: Parsers, s: State, final: bool)
    requires Separated(ms) && s.mode.Normal? && Unmarked(ms, s.pending) && !s.atStart
    requires Held(ms, s.pending) == s.pending
    ensures Step(ms, ps, s, final) == Stay(s)
  {
    UnmarkedStep(ms, ps, s, final);
    PlainStepHoldsLongest(ms, s);
  }

  lemma UnmarkedDrain(ms: Markers, ps: Parsers, s: State, final: bool)
    requires Proper(ms) && Separated(ms) && "" !in AllMarkers(ms)
    requires s.mode.Normal? && Unmarked(ms, s.pending) && BareCall(ps, s).None?
    ensures DrainsTo(s, Held(ms, s.pending), Drained(ms, ps, s, final))
  {
    var held := Held(ms, s.pending);
    var n := |s.pending| - |held|;
    StepperTerminates(ms, ps, final);
    UnmarkedStep(ms, ps, s, final);
    PlainStepHoldsLongest(ms, s);
    UnmarkedParts(ms, s.pending, n);
    UnmarkedEmission(ms, s.pending[..n]);
    ReleaseDrains(ms, s, held);
    if 0 < n < |s.pending| {
      EndOfEnd(s.pending, ms.Holdable());
      HeldRests(ms, ps, Say(ms, s, n).state, final);
    }
    PlainDrain(ms, Stepper(ms, ps, final), s, held);
  }

  // ---------- over all chunks ----------

  ghost function FedAll(ms: Markers, ps: Parsers, s: State, chunks: seq<string>): (r: (State, seq<Event>))
    requires Proper(ms) && Sane(s.mode)
    ensures Sane(r.0.mode)
    decreases |chunks|
  {
    if chunks == [] then (s, [])
    else
      var first := Fed(ms, ps, s, chunks[0]);
      var more := FedAll(ms, ps, first.0, chunks[1..]);
      (more.0, first.1 + more.1)
  }

  /** The state after the input `u`: only its held end is pending, and at the start nothing has come out yet. */
  ghost predicate InStep(ms: Markers, s: State, u: string) {
    s.mode.Normal? && s.pending == Held(ms, u) && (s.atStart ==> Held(ms, u) == u)
  }

  lemma EndOfSum(u: string, n: nat, chunk: string, p: nat)
    requires n <= |u| && p <= n + |chunk|
    ensures End(End(u, n) + chunk, p) == End(u + chunk, p)
  {
  }

  lemma EndsAgree(markers: seq<string>, u: string, chunk: string)
    ensures LongestEnd(LongestEnd(u, markers) + chunk, markers) == LongestEnd(u + chunk, markers)
  {
    var n, p := R.PartialSuffix(u, markers), R.PartialSuffix(u + chunk, markers);
    HeldIsEnough(markers, u, chunk, n);
    assert R.PartialSuffix(End(u, n) + chunk, markers) == p;
    EndOfSum(u, n, chunk, p);
  }

  lemma HeldPartIsUnmarked(ms: Markers, u: string, chunk: string)
    requires Unmarked(ms, u + chunk)
    ensures Unmarked(ms, Held(ms, u) + chunk)
  {
    var k := |u| - |Held(ms, u)|;
    R.SplitTogether(u, chunk, k);
    R.SuffixHasNoMarker(AllMarkers(ms), u[..k], u[k..] + chunk);
  }

  lemma NoBareCall(ms: Markers, ps: Parsers, s: State, u: string, chunk: string)
    requires InStep(ms, s, u) && Plain(ms, u + chunk)
    ensures BareCall(ps, s.(pending := s.pending + chunk)).None?
  {
  }

  /** One chunk of a plain text: all of it comes out except for the end that is held. */
  lemma FedPlain(ms: Markers, ps: Parsers, s: State, u: string, chunk: string)
    requires Proper(ms) && Separated(ms) && "" !in AllMarkers(ms)
    requires InStep(ms, s, u) && Plain(ms, u + chunk) && Bytes(s.pending + chunk) <= MAX_PENDING
    ensures var r := Fed(ms, ps, s, chunk);
      InStep(ms, r.0, u + chunk) && Texts(r.1) + Held(ms, u + chunk) == Held(ms, u) + chunk
  {
    if chunk == "" {
      assert u + chunk == u && Held(ms, u) + "" == Held(ms, u) && "" + Held(ms, u) == Held(ms, u);
    } else {
      HeldPartIsUnmarked(ms, u, chunk);
      NoBareCall(ms, ps, s, u, chunk);
      EndsAgree(ms.Holdable(), u, chunk);
      UnmarkedDrain(ms, ps, s.(pending := s.pending + chunk), false);
    }
  }

  lemma {:induction false} TrimStartOfPrefix(a: string, b: string)
    ensures TrimStart(a) != "" ==> TrimStart(a + b) != "" && TrimStart(a + b)[0] == TrimStart(a)[0]
  {
    if a != "" {
      assert (a + b)[1..] == a[1..] + b;
      TrimStartOfPrefix(a[1..], b);
    }
  }

  lemma PlainPrefix(ms: Markers, a: string, b: string)
    requires Plain(ms, a + b) && "" !in AllMarkers(ms)
    ensures Plain(ms, a)
  {
    TrimStartOfPrefix(a, b);
    PrefixHasNoMarker(AllMarkers(ms), a + b, |a|);
    assert (a + b)[..|a|] == a;
  }

  /** Every chunk fits beside a held marker. */
  ghost predicate SmallChunks(ms: Markers, chunks: seq<string>) {
    forall c, m | c in chunks && m in ms.Holdable() :: Bytes(m) + Bytes(c) <= MAX_PENDING
  }

  lemma HeldFits(markers: seq<string>, u: string, chunk: string)
    requires markers != [] && forall m | m in markers :: Bytes(m) + Bytes(chunk) <= MAX_PENDING
    ensures Bytes(LongestEnd(u, markers) + chunk) <= MAX_PENDING
  {
    var n := R.PartialSuffix(u, markers);
    F.BytesAppend(LongestEnd(u, markers), chunk);
    if n > 0 {
      var m :| m in markers && n < |m| && EndsWith(u, m[..n]);
      F.BytesAppend(m[..n], m[n..]);
      assert m == m[..n] + m[n..];
    } else {
      assert markers[0] in markers;
    }
  }

  /** Text is conserved over any chunks: what came out and what is still pending make up the input so far. */
  lemma {:induction false} ChunksConserveText(ms: Markers, ps: Parsers, s: State, u: string, chunks: seq<string>)
    requires Proper(ms) && Separated(ms) && "" !in AllMarkers(ms)
    requires InStep(ms, s, u) && Plain(ms, u + Flatten(chunks)) && SmallChunks(ms, chunks)
    ensures var r := FedAll(ms, ps, s, chunks);
      InStep(ms, r.0, u + Flatten(chunks)) && Texts(r.1) + r.0.pending == Held(ms, u) + Flatten(chunks)
    decreases |chunks|
  {
    if chunks == [] {
      assert u + Flatten(chunks) == u && Held(ms, u) + "" == "" + Held(ms, u);
    } else {
      var chunk, later := chunks[0], Flatten(chunks[1..]);
      Associative(u, chunk, later);
      PlainPrefix(ms, u + chunk, later);
      assert ms.Holdable() != [];
      HeldFits(ms.Holdable(), u, chunk);
      FedPlain(ms, ps, s, u, chunk);
      var first := Fed(ms, ps, s, chunk);
      ChunksConserveText(ms, ps, first.0, u + chunk, chunks[1..]);
      var more := FedAll(ms, ps, first.0, chunks[1..]);
      TextsAppend(first.1, more.1);
      Regroup(Texts(first.1), Texts(more.1), more.0.pending, Held(ms, u + chunk), later, Held(ms, u), chunk);
    }
  }

  lemma {:induction false} TextsAppend(a: seq<Event>, b: seq<Event>)
    ensures Texts(a + b) == Texts(a) + Texts(b)
  {
    if a == [] {
      assert a + b == b && "" + Texts(b) == Texts(b);
    } else {
      assert (a + b)[1..] == a[1..] + b;
      TextsAppend(a[1..], b);
      Associative(if a[0].Text? then a[0].text else "", Texts(a[1..]), Texts(b));
    }
  }

  lemma Regroup(t1: string, t2: string, last: string, mid: string, later: string, held: string, chunk: string)
    requires t2 + last == mid + later && t1 + mid == held + chunk
    ensures (t1 + t2) + last == held + (chunk + later)
  {
    Associative(t1, t2, last);
    Associative(t1, mid, later);
    Associative(held, chunk, later);
  }

  /**
   * For a plain input in small chunks: after any number of chunks the text that came out and the pending text make up
   * the input, the pending text is its longest end that may begin a marker, and the final flush adds nothing to it.
   */
  lemma TextIsConserved(ms: Markers, ps: Parsers, chunks: seq<string>)
    requires Proper(ms) && Separated(ms) && "" !in AllMarkers(ms)
    requires Plain(ms, Flatten(chunks)) && SmallChunks(ms, chunks)
    ensures var r := FedAll(ms, ps, Initial, chunks);
      && Texts(r.1) + r.0.pending == Flatten(chunks)
      && r.0.pending == Held(ms, Flatten(chunks))
      && Texts(Drained(ms, ps, r.0, true).1) == ""
  {
    var input := Flatten(chunks);
    assert "" + input == input;
    assert Held(ms, "") == "";
    ChunksConserveText(ms, ps, Initial, "", chunks);
    var r := FedAll(ms, ps, Initial, chunks);
    assert input + "" == input && r.0.pending + "" == r.0.pending;
    HeldPartIsUnmarked(ms, input, "");
    NoBareCall(ms, ps, r.0, input, "");
    EndOfEnd(input, ms.Holdable());
    UnmarkedDrain(ms, ps, r.0, true);
    OnlyEmpty(Texts(Drained(ms, ps, r.0, true).1), r.0.pending);
  }

  lemma OnlyEmpty(t: string, s: string)
    requires t + s == s
    ensures t == ""
  {
  }

  /** The whole plain input comes out exactly when its end does not begin a marker. */
  lemma PlainInputComesOutExactlyWhen(ms: Markers, ps: Parsers, chunks: seq<string>)
    requires Proper(ms) && Separated(ms) && "" !in AllMarkers(ms)
    requires Plain(ms, Flatten(chunks)) && SmallChunks(ms, chunks)
    ensures var r := FedAll(ms, ps, Initial, chunks);
      Texts(r.1 + Drained(ms, ps, r.0, true).1) == Flatten(chunks)
      <==> !exists m, k :: m in ms.Holdable() && 0 < k < |m| && EndsWith(Flatten(chunks), m[..k])
  {
    TextIsConserved(ms, ps, chunks);
    var r := FedAll(ms, ps, Initial, chunks);
    TextsAppend(r.1, Drained(ms, ps, r.0, true).1);
    assert Texts(r.1) + "" == Texts(r.1);
    assert r.0.pending == "" <==> R.PartialSuffix(Flatten(chunks), ms.Holdable()) == 0;
    assert |Texts(r.1) + r.0.pending| == |Texts(r.1)| + |r.0.pending|;
  }

  // ---------- a result marker that arrives in two pieces ----------

  /** The character does not occur after the first place. */
  predicate FirstOnly(text: string, c: char) {
    forall i | 0 < i < |text| :: text[i] != c
  }

  /** Nothing after the first character of the text can begin one of the markers. */
  predicate Inert(text: string, markers: seq<string>) {
    text != "" && forall t | t in markers :: t != "" && FirstOnly(text, t[0])
  }

  /**
   * Inside a result marker nothing begins a marker, inside a marker nothing begins a result marker, and no result
   * marker has a newline.
   */
  predicate Clear(ms: Markers) {
    forall m | m in ms.results ::
      && '\n' !in m && Inert(m, AllMarkers(ms))
      && forall t | t in AllMarkers(ms) :: Inert(t, [m])
  }

  /** A text begins a marker that is held back, and does not complete it. */
  ghost predicate BeginsHeld(ms: Markers, text: string) {
    exists t :: t in ms.Holdable() && |text| < |t| && text <= t
  }

  /** The beginning of a result marker is held, alone or with text before it, exactly if it begins a held marker. */
  lemma CutIsHeldExactlyWhen(ms: Markers, x: string, m: string, k: nat)
    requires Clear(ms) && Separated(ms) && m in ms.results && 0 < k <= |m|
    ensures |Held(ms, x + m[..k])| >= k <==> BeginsHeld(ms, m[..k])
  {
    var u := x + m[..k];
    var n := R.PartialSuffix(u, ms.Holdable());
    if t :| t in ms.Holdable() && k < |t| && m[..k] <= t {
      assert t[..k] == m[..k] && EndsWith(u, t[..k]);
    }
    if n >= k {
      var t :| t in ms.Holdable() && n < |t| && EndsWith(u, t[..n]);
      MarkerLists(ms);
      HoldableMembers(ms);
      EndReachesBack(x, m, k, t, n);
      assert Inert(t, [m]) && m in [m];
    }
  }

  lemma EndReachesBack(x: string, m: string, k: nat, t: string, n: nat)
    requires 0 < k <= |m| && k <= n < |t| && EndsWith(x + m[..k], t[..n])
    ensures if n == k then m[..k] <= t else !FirstOnly(t, m[0])
  {
    var u := x + m[..k];
    assert u[|u| - k..] == t[..n][n - k..] == m[..k];
    if n == k {
      assert t[..n] == m[..k];
    } else {
      assert t[n - k] == m[..k][0];
    }
  }

  lemma AtStarts(text: string, marker: string, q: nat)
    requires marker != "" && R.At(text, marker, q)
    ensures marker[0] in text
  {
    assert text[q..][0] == text[q];
  }

  lemma EndStarts(text: string, marker: string, n: nat)
    requires 0 < n < |marker| && EndsWith(text, marker[..n])
    ensures marker[0] in text
  {
    assert text[|text| - n] == marker[..n][0];
  }

  lemma NothingBegins(text: string, markers: seq<string>)
    requires forall t | t in markers :: t != "" && t[0] !in text
    ensures R.NoneBefore(text, markers, |text| + 1)
    ensures LongestEnd(text, markers) == ""
  {
    forall t, q | t in markers && 0 <= q <= |text|
      ensures !R.At(text, t, q)
    {
      if R.At(text, t, q) { AtStarts(text, t, q); }
    }
    forall t, n | t in markers && 0 < n < |t|
      ensures !EndsWith(text, t[..n])
    {
      if EndsWith(text, t[..n]) { EndStarts(text, t, n); }
    }
  }

  lemma InsideIsPlain(ms: Markers, m: string, j: nat)
    requires Clear(ms) && Separated(ms) && m in ms.results && 0 < j <= |m|
    ensures Unmarked(ms, m[j..]) && Held(ms, m[j..]) == ""
  {
    MarkerLists(ms);
    HoldableMembers(ms);
    NothingBegins(m[j..], AllMarkers(ms));
    NothingBegins(m[j..], ms.Holdable());
  }

  /** What follows the held end before a cut: the rest of the marker, or all of it. */
  lemma Window(x: string, m: string, k: nat, h: nat)
    requires 0 < k <= |m| && h <= |x| + k
    ensures h < k ==> End(x + m[..k], h) + m[k..] == m[k - h..]
    ensures h >= k ==> End(x + m[..k], h) + m[k..] == x[|x| + k - h..] + m
    ensures h >= k ==> (x + m[..k])[..|x| + k - h] == x[..|x| + k - h]
  {
  }

  /** A result marker in front of which nothing is left: it stays unseen. */
  lemma ResultIsSwallowed(ms: Markers, ps: Parsers, s: State)
    requires Proper(ms) && Clear(ms) && s.mode.Normal? && s.pending in ms.results
    ensures Texts(Drained(ms, ps, s, false).1) == ""
  {
    StepperTerminates(ms, ps, false);
    var step := Stepper(ms, ps, false);
    ResultIsEntered(ms, ps, s);
    DrainStops(step, s);
    assert [] + [] == step(s).events;
  }

  lemma ResultIsEntered(ms: Markers, ps: Parsers, s: State)
    requires Clear(ms) && s.mode.Normal? && s.pending in ms.results && "" !in ms.results
    ensures var t := Step(ms, ps, s, false);
      t.events == [] && (t.progressed ==> Step(ms, ps, t.state, false) == Stay(t.state))
  {
    assert R.At(s.pending, s.pending, 0);
    var found := R.FindMarker(s.pending, ms.results);
    assert found.Some? && found.value.0 == 0;
    EnteredRests(ms, s);
  }

  lemma EnteredRests(ms: Markers, s: State)
    requires '\n' !in s.pending
    ensures var t := ResultStep(ms, s, false);
      t.events == [] && (t.progressed ==> t.state.mode.IgnoreInlineToolResult? && '\n' !in t.state.pending)
  {
  }

  lemma DrainsOnce(step: State -> Stepped, s: State)
    requires Terminates(step) && Sane(s.mode) && step(s).progressed
    ensures Sane(step(s).state.mode)
    ensures DrainWith(step, s).1 == step(s).events + DrainWith(step, step(s).state).1
  {
    assert Shrinks(s, step(s));
  }

  lemma NoneOfFewer(text: string, all: seq<string>, some: seq<string>)
    requires R.NoneBefore(text, all, |text| + 1) && forall m | m in some :: m in all
    ensures R.NoneBefore(text, some, |text| + 1)
  {
  }

  /** The leftmost result marker of `z + m` is `m`. */
  lemma MarkerIsFirst(ms: Markers, z: string, m: string)
    requires Clear(ms) && m in ms.results && "" !in ms.results && R.NoneBefore(z, ms.results, |z| + 1)
    ensures var found := R.FindMarker(z + m, ms.results);
      found.Some? && found.value.0 == |z|
  {
    MarkerLists(ms);
    assert (z + m)[|z|..] == m && R.At(z + m, m, |z|);
    forall t, q | t in ms.results && 0 <= q < |z|
      ensures !R.At(z + m, t, q)
    {
      R.AtAppend(z, m, t, q);
      if R.At(z + m, t, q) { Overlap(z, m, t, q); }
    }
  }

  /** A marker across the border has the first character behind the border in it. */
  lemma Overlap(z: string, m: string, t: string, q: nat)
    requires q < |z| < q + |t| && m != "" && R.At(z + m, t, q)
    ensures !FirstOnly(t, m[0])
  {
    assert (z + m)[q..][|z| - q] == (z + m)[|z|] == m[0];
  }

  /** Text in front of a result marker comes out, the marker does not. */
  lemma TextBeforeResult(ms: Markers, ps: Parsers, s: State, z: string, m: string)
    requires Proper(ms) && Clear(ms) && "" !in AllMarkers(ms) && s.mode.Normal?
    requires m in ms.results && Unmarked(ms, z) && s.pending == z + m
    ensures Texts(Drained(ms, ps, s, false).1) == z
  {
    MarkerLists(ms);
    if z == "" {
      assert z + m == m;
      ResultIsSwallowed(ms, ps, s);
    } else {
      StepperTerminates(ms, ps, false);
      var step := Stepper(ms, ps, false);
      NoneOfFewer(z, AllMarkers(ms), ms.results);
      MarkerIsFirst(ms, z, m);
      assert s.pending[..|z|] == z && s.pending[|z|..] == m;
      assert step(s) == Say(ms, s, |z|);
      DrainsOnce(step, s);
      ResultIsSwallowed(ms, ps, step(s).state);
      UnmarkedEmission(ms, z);
      TextsAppend(step(s).events, DrainWith(step, step(s).state).1);
      assert z + "" == z;
    }
  }

  lemma FirstPiece(ms: Markers, ps: Parsers, u: string)
    requires Proper(ms) && Separated(ms) && "" !in AllMarkers(ms) && Plain(ms, u)
    requires forall t | t in ms.Holdable() :: Bytes(t) + Bytes(u) <= MAX_PENDING
    ensures var r := Fed(ms, ps, Initial, u);
      InStep(ms, r.0, u) && Texts(r.1) + Held(ms, u) == u
  {
    assert "" + u == u && Held(ms, "") == "" && ms.Holdable() != [];
    HeldFits(ms.Holdable(), "", u);
    FedPlain(ms, ps, Initial, "", u);
  }

  /** The cut is not in a held end: the rest of the marker comes out as text. */
  lemma LooseEnd(ms: Markers, ps: Parsers, s: State, m: string, j: nat)
    requires Proper(ms) && Separated(ms) && Clear(ms) && "" !in AllMarkers(ms)
    requires s.mode.Normal? && !s.atStart && m in ms.results && 0 < j <= |m| && s.pending == m[j..]
    ensures Texts(Drained(ms, ps, s, false).1) == m[j..]
  {
    InsideIsPlain(ms, m, j);
    UnmarkedDrain(ms, ps, s, false);
    var t := Texts(Drained(ms, ps, s, false).1);
    assert t + "" == t;
  }

  lemma UnmarkedTail(ms: Markers, x: string, more: string, n: nat)
    requires Unmarked(ms, x + more) && "" !in AllMarkers(ms) && n <= |x|
    ensures Unmarked(ms, x[n..])
  {
    UnmarkedParts(ms, x + more, |x|);
    assert (x + more)[..|x|] == x;
    UnmarkedParts(ms, x, n);
  }

  lemma SecondPiece(ms: Markers, ps: Parsers, s: State, x: string, m: string, k: nat)
    requires Proper(ms) && Separated(ms) && Clear(ms) && "" !in AllMarkers(ms)
    requires m in ms.results && 0 < k < |m| && Unmarked(ms, x + m[..k]) && InStep(ms, s, x + m[..k])
    requires Bytes(s.pending + m[k..]) <= MAX_PENDING
    ensures var h := |Held(ms, x + m[..k])|;
      Texts(Fed(ms, ps, s, m[k..]).1) == if h < k then m[k - h..] else x[|x| + k - h..]
  {
    hide AllMarkers, Proper, Separated, Clear, Unmarked, Texts, Drained;
    var h := |Held(ms, x + m[..k])|;
    var fed := s.(pending := s.pending + m[k..]);
    Window(x, m, k, h);
    if h < k {
      LooseEnd(ms, ps, fed, m, k - h);
    } else {
      UnmarkedTail(ms, x, m[..k], |x| + k - h);
      TextBeforeResult(ms, ps, fed, x[|x| + k - h..], m);
    }
  }

  /**
   * A result marker that arrives in two pieces comes out as text, in several events, exactly if the part before the
   * cut does not begin a marker that is held back; otherwise none of it comes out.
   */
  lemma CutResultShowsExactlyWhen(ms: Markers, ps: Parsers, x: string, m: string, k: nat)
    requires Proper(ms) && Separated(ms) && Clear(ms) && "" !in AllMarkers(ms)
    requires m in ms.results && 0 < k < |m| && Plain(ms, x + m[..k]) && SmallChunks(ms, [x + m[..k], m[k..]])
    ensures Texts(FedAll(ms, ps, Initial, [x + m[..k], m[k..]]).1)
         == if BeginsHeld(ms, m[..k]) then x else x + m
  {
    CutIsHeldExactlyWhen(ms, x, m, k);
    CutShowsUnlessHeld(ms, ps, x, m, k);
  }

  lemma CutShowsUnlessHeld(ms: Markers, ps: Parsers, x: string, m: string, k: nat)
    requires Proper(ms) && Separated(ms) && Clear(ms) && "" !in AllMarkers(ms)
    requires m in ms.results && 0 < k < |m| && Plain(ms, x + m[..k]) && SmallChunks(ms, [x + m[..k], m[k..]])
    ensures Texts(FedAll(ms, ps, Initial, [x + m[..k], m[k..]]).1)
         == if |Held(ms, x + m[..k])| < k then x + m else x
  {
    TwoFed(ms, ps, Initial, x + m[..k], m[k..]);
    PiecesShow(ms, ps, x, m, k);
  }

  lemma PiecesShow(ms: Markers, ps: Parsers, x: string, m: string, k: nat)
    requires Proper(ms) && Separated(ms) && Clear(ms) && "" !in AllMarkers(ms)
    requires m in ms.results && 0 < k < |m| && Plain(ms, x + m[..k]) && SmallChunks(ms, [x + m[..k], m[k..]])
    ensures var first := Fed(ms, ps, Initial, x + m[..k]);
      Texts(first.1) + Texts(Fed(ms, ps, first.0, m[k..]).1) == if |Held(ms, x + m[..k])| < k then x + m else x
  {
    var u := x + m[..k];
    PiecesFit(ms, u, m[k..]);
    FirstPiece(ms, ps, u);
    var first := Fed(ms, ps, Initial, u);
    SecondPiece(ms, ps, first.0, x, m, k);
    PiecesJoin(x, m, k, |Held(ms, u)|, Texts(first.1));
  }

  lemma PiecesFit(ms: Markers, u: string, rest: string)
    requires SmallChunks(ms, [u, rest])
    ensures forall t | t in ms.Holdable() :: Bytes(t) + Bytes(u) <= MAX_PENDING
    ensures Bytes(Held(ms, u) + rest) <= MAX_PENDING
  {
    var chunks := [u, rest];
    assert u in chunks && rest in chunks && ms.Holdable() != [];
    HeldFits(ms.Holdable(), u, rest);
  }

  lemma PiecesJoin(x: string, m: string, k: nat, h: nat, t: string)
    requires 0 < k <= |m| && h <= |x| + k && t + End(x + m[..k], h) == x + m[..k]
    ensures if h < k then t + m[k - h..] == x + m else t + x[|x| + k - h..] == x
  {
    var u := x + m[..k];
    assert t == (t + End(u, h))[..|t|] == u[..|u| - h];
    if h < k {
      assert t == x + m[..k - h];
      assert m == m[..k - h] + m[k - h..];
    } else {
      assert t == x[..|x| + k - h];
    }
  }

  lemma TwoFed(ms: Markers, ps: Parsers, s: State, a: string, b: string)
    requires Proper(ms) && Sane(s.mode)
    ensures var first := Fed(ms, ps, s, a);
      Texts(FedAll(ms, ps, s, [a, b]).1) == Texts(first.1) + Texts(Fed(ms, ps, first.0, b).1)
  {
    var first := Fed(ms, ps, s, a);
    var second := Fed(ms, ps, first.0, b);
    assert [a, b][1..] == [b] && [b][1..] == [];
    assert FedAll(ms, ps, first.0, [b]).1 == second.1 + [];
    assert second.1 + [] == second.1;
    TextsAppend(first.1, second.1);
  }

  // ---------- the markers of the program ----------

  lemma {:induction false} BytesBound(s: string)
    ensures Bytes(s) <= 4 * |s|
  {
    if s != "" {
      BytesBound(s[1..]);
    }
  }

  lemma HoldableMarkersAreShort()
    ensures forall m | m in MARKERS.Holdable() :: |m| <= 16
  {
    forall m | m in MARKERS.Holdable()
      ensures |m| <= 16
    {
      if m in MARKERS.Openings() {
        var i :| 0 <= i < |MARKERS.fences| && MARKERS.Openings()[i] == m;
        assert MARKERS.fences[i] in MARKERS.fences;
      }
    }
  }

  /** No chunk is longer than the limit of the detector, a marker left aside. */
  ghost predicate Small(chunks: seq<string>) {
    forall c | c in chunks :: Bytes(c) + 64 <= MAX_PENDING
  }

  lemma SmallIsSmall(chunks: seq<string>)
    requires Small(chunks)
    ensures SmallChunks(MARKERS, chunks)
  {
    HoldableMarkersAreShort();
    forall c, m | c in chunks && m in MARKERS.Holdable()
      ensures Bytes(m) + Bytes(c) <= MAX_PENDING
    {
      BytesBound(m);
    }
  }

  /** Conservation for the markers of the program. */
  lemma ProgramConservesText(ps: Parsers, chunks: seq<string>)
    requires Plain(MARKERS, Flatten(chunks)) && Small(chunks)
    ensures Proper(MARKERS)
    ensures var r := FedAll(MARKERS, ps, Initial, chunks);
      && Texts(r.1) + r.0.pending == Flatten(chunks)
      && r.0.pending == Held(MARKERS, Flatten(chunks))
      && Texts(Drained(MARKERS, ps, r.0, true).1) == ""
  {
    ProgramMarkers();
    SmallIsSmall(chunks);
    TextIsConserved(MARKERS, ps, chunks);
  }

  lemma ProgramNeverShowsResults(ps: Parsers, s: State, final: bool)
    requires Sane(s.mode)
    ensures Proper(MARKERS) && ShowsNoResult(MARKERS, Drained(MARKERS, ps, s, final).1)
  {
    ProgramMarkers();
    ResultsAreNeverShown(MARKERS, ps, s, final);
  }

  /** What comes out of a plain input in the end. */
  ghost function Shown(ms: Markers, ps: Parsers, chunks: seq<string>): string
    requires Proper(ms)
  {
    var r := FedAll(ms, ps, Initial, chunks);
    Texts(r.1 + Drained(ms, ps, r.0, true).1)
  }

  lemma ShownIsAllButHeld(ms: Markers, ps: Parsers, chunks: seq<string>)
    requires Proper(ms) && Separated(ms) && "" !in AllMarkers(ms)
    requires Plain(ms, Flatten(chunks)) && SmallChunks(ms, chunks)
    ensures Shown(ms, ps, chunks) + Held(ms, Flatten(chunks)) == Flatten(chunks)
  {
    TextIsConserved(ms, ps, chunks);
    var r := FedAll(ms, ps, Initial, chunks);
    TextsAppend(r.1, Drained(ms, ps, r.0, true).1);
    assert Texts(r.1) + "" == Texts(r.1);
  }

  /** With the markers of the program, a plain input comes out whole exactly if its end begins no marker. */
  lemma ProgramShowsPlainInputExactlyWhen(ps: Parsers, chunks: seq<string>)
    requires Plain(MARKERS, Flatten(chunks)) && Small(chunks)
    ensures Proper(MARKERS)
    ensures Shown(MARKERS, ps, chunks) == Flatten(chunks)
      <==> !exists m, k :: m in MARKERS.Holdable() && 0 < k < |m| && EndsWith(Flatten(chunks), m[..k])
  {
    ProgramMarkers();
    SmallIsSmall(chunks);
    PlainInputComesOutExactlyWhen(MARKERS, ps, chunks);
  }

  predicate IsOpener(c: char) {
    c == '[' || c == '`' || c == '\'' || c == '<'
  }

  /** A result marker is a bracket and a text without the beginning of any marker. */
  predicate Bracketed(m: string) {
    m != "" && m[0] == '[' && '\n' !in m && forall i | 0 < i < |m| :: !IsOpener(m[i])
  }

  lemma NameOfResult()
    ensures Bracketed("[Tool result for ")
  {
  }

  lemma LabelOfResult()
    ensures Bracketed("[Tool result]:")
  {
  }

  lemma LineOfResult()
    ensures Bracketed("[tool_result ")
  {
  }

  lemma ResultsAreBracketed()
    ensures forall m | m in MARKERS.results :: Bracketed(m)
  {
    NameOfResult();
    LabelOfResult();
    LineOfResult();
  }

  /** A marker begins with an opener, and no bracket follows. */
  predicate Opened(t: string) {
    t != "" && IsOpener(t[0]) && FirstOnly(t, '[')
  }

  lemma OthersAreOpened()
    ensures Opened(MARKERS.inlineCall) && Opened(MARKERS.followUp) && Opened(MARKERS.assistant)
  {
  }

  lemma FencesAreOpened()
    ensures forall f | f in MARKERS.fences :: Opened(f.opening)
  {
  }

  lemma MarkersAreOpened()
    ensures forall t | t in AllMarkers(MARKERS) :: Opened(t)
  {
    ResultsAreBracketed();
    OthersAreOpened();
    FencesAreOpened();
    OpenedLists(MARKERS);
  }

  lemma OpenedLists(ms: Markers)
    requires forall m | m in ms.results :: Bracketed(m)
    requires forall f | f in ms.fences :: Opened(f.opening)
    requires Opened(ms.inlineCall) && Opened(ms.followUp) && Opened(ms.assistant)
    ensures forall t | t in AllMarkers(ms) :: Opened(t)
  {
    forall t | t in AllMarkers(ms)
      ensures Opened(t)
    {
      if t in ms.Openings() {
        var i :| 0 <= i < |ms.fences| && ms.Openings()[i] == t;
        assert ms.fences[i] in ms.fences;
      }
    }
  }

  lemma MarkersAreClear()
    ensures Clear(MARKERS)
  {
    ResultsAreBracketed();
    MarkersAreOpened();
    OpenedIsClear(MARKERS);
  }

  lemma OpenedIsClear(ms: Markers)
    requires forall m | m in ms.results :: Bracketed(m)
    requires forall t | t in AllMarkers(ms) :: Opened(t)
    ensures Clear(ms)
  {
  }

  /** With the markers of the program: a result marker in two pieces. */
  lemma ProgramShowsCutResultExactlyWhen(ps: Parsers, x: string, m: string, k: nat)
    requires m in MARKERS.results && 0 < k < |m| && Plain(MARKERS, x + m[..k]) && Small([x + m[..k], m[k..]])
    ensures Proper(MARKERS)
    ensures Texts(FedAll(MARKERS, ps, Initial, [x + m[..k], m[k..]]).1)
         == if BeginsHeld(MARKERS, m[..k]) then x else x + m
  {
    ProgramMarkers();
    MarkersAreClear();
    SmallIsSmall([x + m[..k], m[k..]]);
    CutResultShowsExactlyWhen(MARKERS, ps, x, m, k);
  }

  lemma MarkersAreLonger()
    ensures forall m | m in AllMarkers(MARKERS) :: |m| > 2 && m[0] != 'a'
  {
    forall m | m in AllMarkers(MARKERS)
      ensures |m| > 2 && m[0] != 'a'
    {
      if m in MARKERS.Openings() {
        var i :| 0 <= i < |MARKERS.fences| && MARKERS.Openings()[i] == m;
        assert MARKERS.fences[i] in MARKERS.fences;
      }
    }
  }

  lemma BracketIsHeld(markers: seq<string>, tag: string)
    requires tag in markers && |tag| > 1 && tag[0] == '<' && forall m | m in markers :: |m| > 0 && m[0] != 'a'
    ensures LongestEnd(['a', '<'], markers) == ['<']
  {
    var text := ['a', '<'];
    forall m | m in markers
      ensures NoneLonger(text, m, 1)
    {
      forall k | 1 < k < |m|
        ensures !EndsWith(text, m[..k])
      {
        assert m[..k][0] == m[0];
      }
    }
    assert tag[..1] == ['<'] && Begins(text, tag, 1);
    LongestIsUnique(text, markers, 1);
  }

  lemma ShortIsPlain(ms: Markers, text: string)
    requires |text| == 2 && !IsWhitespace(text[0]) && text[0] != '{' && forall m | m in AllMarkers(ms) :: |m| > 2
    ensures Plain(ms, text)
  {
    assert TrimStart(text) == text;
  }

  lemma BracketIsLost(ms: Markers, ps: Parsers)
    requires Proper(ms) && Separated(ms) && SmallChunks(ms, [['a', '<']])
    requires forall m | m in AllMarkers(ms) :: |m| > 2 && m[0] != 'a'
    requires ms.followUp[0] == '<' && forall m | m in ms.Holdable() :: m in AllMarkers(ms)
    ensures Shown(ms, ps, [['a', '<']]) == ['a']
  {
    var text := ['a', '<'];
    ShortIsPlain(ms, text);
    assert [text][1..] == [] && text + [] == text && Flatten([text]) == text;
    ShownIsAllButHeld(ms, ps, [text]);
    MarkerLists(ms);
    HoldableMembers(ms);
    BracketIsHeld(ms.Holdable(), ms.followUp);
    AllButLast(Shown(ms, ps, [text]), 'a', '<');
  }

  lemma AllButLast(t: string, a: char, b: char)
    requires t + [b] == [a, b]
    ensures t == [a]
  {
    assert t == (t + [b])[..|t|];
  }

  /** A concrete input that loses its end: of `a<` only `a` comes out. */
  lemma TrailingBracketIsLost(ps: Parsers)
    ensures Proper(MARKERS) && Shown(MARKERS, ps, [['a', '<']]) == ['a']
  {
    ProgramMarkers();
    BytesBound(['a', '<']);
    SmallIsSmall([['a', '<']]);
    MarkersAreLonger();
    TagIsHoldable();
    BracketIsLost(MARKERS, ps);
  }

  lemma NothingHeldBeginsSo(ms: Markers)
    requires forall f | f in ms.fences :: f.opening != "" && f.opening[0] != '['
    requires |ms.inlineCall| > 1 && ms.inlineCall[1] == 't' && ms.followUp != "" && ms.followUp[0] != '['
    ensures !BeginsHeld(ms, ['[', 'T'])
  {
    forall t | t in ms.Holdable()
      ensures !(['[', 'T'] <= t)
    {
      if t in ms.Openings() {
        var i :| 0 <= i < |ms.fences| && ms.Openings()[i] == t;
        assert ms.fences[i] in ms.fences;
      }
    }
  }

  lemma InlineCallIsLower()
    ensures |MARKERS.inlineCall| > 1 && MARKERS.inlineCall[1] == 't'
    ensures MARKERS.followUp != "" && MARKERS.followUp[0] != '['
    ensures forall f | f in MARKERS.fences :: f.opening != "" && f.opening[0] != '['
  {
  }

  lemma ResultsAreShort()
    ensures forall m | m in MARKERS.results :: 2 < |m| < 20
  {
  }

  lemma ShortIsSmall(u: string, rest: string)
    requires |u| < 20 && |rest| < 20
    ensures Small([u, rest])
  {
    BytesBound(u);
    BytesBound(rest);
  }

  lemma CutFront(m: string)
    requires |m| > 2 && m[0] == '[' && m[1] == 'T'
    ensures m[..2] == ['[', 'T']
  {
  }

  lemma CutSecondShows(ms: Markers, ps: Parsers, m: string)
    requires Proper(ms) && Separated(ms) && Clear(ms) && "" !in AllMarkers(ms)
    requires m in ms.results && |m| > 2 && m[0] == '[' && m[1] == 'T' && !BeginsHeld(ms, ['[', 'T'])
    requires (forall t | t in AllMarkers(ms) :: |t| > 2) && SmallChunks(ms, [m[..2], m[2..]])
    ensures Texts(FedAll(ms, ps, Initial, [m[..2], m[2..]]).1) == m
  {
    CutFront(m);
    ShortIsPlain(ms, m[..2]);
    assert "" + m[..2] == m[..2] && "" + m == m;
    CutResultShowsExactlyWhen(ms, ps, "", m, 2);
  }

  /** The markers `[Tool result]:` and `[Tool result for ` are shown when they are cut behind the second character. */
  lemma ResultCutInTwoIsShown(ps: Parsers, m: string)
    requires m in MARKERS.results && |m| > 1 && m[1] == 'T'
    ensures Proper(MARKERS)
    ensures Texts(FedAll(MARKERS, ps, Initial, [m[..2], m[2..]]).1) == m
  {
    ProgramMarkers();
    MarkersAreClear();
    ResultsAreShort();
    ResultsAreBracketed();
    ShortIsSmall(m[..2], m[2..]);
    SmallIsSmall([m[..2], m[2..]]);
    MarkersAreLonger();
    InlineCallIsLower();
    NothingHeldBeginsSo(MARKERS);
    CutSecondShows(MARKERS, ps, m);
  }

  lemma TagIsHoldable()
    ensures MARKERS.followUp != "" && MARKERS.followUp[0] == '<'
    ensures forall m | m in MARKERS.Holdable() :: m in AllMarkers(MARKERS)
  {
    MarkerLists(MARKERS);
    forall m | m in MARKERS.Holdable()
      ensures m in AllMarkers(MARKERS)
    {
      assert m in MARKERS.Openings() || m == MARKERS.inlineCall || m == MARKERS.followUp;
    }
  }

  // ---------- a fenced call ----------

  /** A fenced call that arrives in one piece, with nothing else, comes out as the call that its body describes. */
  lemma FencedCallComesOut(ms: Markers, ps: Parsers, s: State, fence: Fence, body: string, final: bool)
    requires Proper(ms) && Separated(ms) && "" !in AllMarkers(ms)
    requires s.mode.Normal? && fence in ms.fences && FenceAt(ms.fences, s.pending) == Some(fence)
    requires s.pending == fence.opening + (body + fence.closing)
    requires R.NoneBefore(s.pending, ms.results, |s.pending| + 1)
    requires Find(body + fence.closing, fence.closing) == Some(|body|)
    ensures var r := Drained(ms, ps, s, final);
      && r.0.mode.Normal? && r.0.pending == ""
      && r.1 == match ps.block(body, s.nextId) { case Some((call, _)) => [Tool(call)] case None => [] }
  {
    StepperTerminates(ms, ps, final);
    var step := Stepper(ms, ps, final);
    FenceOpens(ms, ps, s, fence, body, final);
    var inside := Enter(s, |fence.opening|, ToolBlock(fence, "", false)).state;
    assert inside.pending == body + fence.closing;
    BlockCloses(ms, ps, inside, fence, body, final);
    var t := step(inside);
    EmptyRests(ms, ps, t.state, final);
    DrainStops(step, inside);
    assert Shrinks(s, step(s));
    assert [] + t.events == t.events;
  }

  lemma FenceOpens(ms: Markers, ps: Parsers, s: State, fence: Fence, body: string, final: bool)
    requires s.mode.Normal? && fence in ms.fences && FenceAt(ms.fences, s.pending) == Some(fence)
    requires R.NoneBefore(s.pending, ms.results, |s.pending| + 1)
    ensures Step(ms, ps, s, final) == Enter(s, |fence.opening|, ToolBlock(fence, "", false))
  {
    var i :| 0 <= i < |ms.fences| && ms.fences[i] == fence;
    assert ms.Openings()[i] == fence.opening && R.At(s.pending, fence.opening, 0);
    assert R.FindMarker(s.pending, ms.results).None?;
    var found := R.FindMarker(s.pending, ms.Openings());
    assert found.Some? && found.value.0 == 0;
  }

  lemma BlockCloses(ms: Markers, ps: Parsers, s: State, fence: Fence, body: string, final: bool)
    requires s.mode == ToolBlock(fence, "", false) && s.pending == body + fence.closing
    requires Find(s.pending, fence.closing) == Some(|body|)
    ensures var t := Step(ms, ps, s, final);
      && t.progressed && t.state.mode.Normal? && t.state.pending == "" && t.state.atStart == s.atStart
      && t.events == match ps.block(body, s.nextId) { case Some((call, _)) => [Tool(call)] case None => [] }
  {
    assert s.pending[..|body|] == body && "" + body == body;
    assert s.pending[|body| + |fence.closing|..] == "";
  }

  lemma EmptyRests(ms: Markers, ps: Parsers, s: State, final: bool)
    requires "" !in AllMarkers(ms) && s.mode.Normal? && s.pending == ""
    ensures Step(ms, ps, s, final) == Stay(s)
  {
    forall m | m in AllMarkers(ms)
      ensures !R.At("", m, 0)
    {
    }
    UnmarkedStep(ms, ps, s, final);
  }

  // ---------- calls outside fences ----------

  /** No marker of a tool result and no opening fence; these are looked for before everything else. */
  ghost predicate Fenceless(ms: Markers, text: string) {
    R.NoneBefore(text, ms.results, |text| + 1) && R.NoneBefore(text, ms.Openings(), |text| + 1)
  }

  lemma FencelessStep(ms: Markers, ps: Parsers, s: State, final: bool)
    requires s.mode.Normal? && Fenceless(ms, s.pending)
    ensures Step(ms, ps, s, final) == LineStep(ms, ps, s, final)
  {
    assert R.FindMarker(s.pending, ms.results).None?;
    assert R.FindMarker(s.pending, ms.Openings()).None?;
  }

  /** Draining takes a productive step and drains on. */
  lemma DrainedStep(ms: Markers, ps: Parsers, s: State, final: bool)
    requires Proper(ms) && Sane(s.mode) && Step(ms, ps, s, final).progressed
    ensures var t := Step(ms, ps, s, final);
      && Sane(t.state.mode)
      && Drained(ms, ps, s, final)
      == (Drained(ms, ps, t.state, final).0, t.events + Drained(ms, ps, t.state, final).1)
  {
    StepperTerminates(ms, ps, final);
    assert Shrinks(s, Stepper(ms, ps, final)(s));
  }

  /** Draining stops at an unproductive step. */
  lemma DrainedStop(ms: Markers, ps: Parsers, s: State, final: bool)
    requires Proper(ms) && Sane(s.mode) && !Step(ms, ps, s, final).progressed
    ensures var t := Step(ms, ps, s, final);
      Drained(ms, ps, s, final) == (t.state, t.events)
  {
    StepperTerminates(ms, ps, final);
    DrainStops(Stepper(ms, ps, final), s);
  }

  lemma AtTheStart(pattern: string, text: string)
    ensures Find(pattern + text, pattern) == Some(0)
    ensures (pattern + text)[|pattern|..] == text
  {
  }

  /** The rest of a text behind its first line. */
  lemma LineEnds(line: string, rest: string)
    requires '\n' !in line
    ensures var text := line + (['\n'] + rest);
      IndexOf(text, '\n') == Some(|line|) && text[..|line|] == line && text[|line| + 1..] == rest
  {
    IndexOfFirst(line, '\n', rest);
  }

  /** What a call line leaves: the call that its reader makes of it, or nothing, and the text behind it. */
  function AfterLine(ps: Parsers, s: State, line: string, rest: string): (State, seq<Event>) {
    match ps.line(line, s.nextId)
    case Some((call, next)) => (State(Normal, StripSeparator(rest), false, next), [Tool(call)])
    case None => (State(Normal, StripSeparator(rest), false, s.nextId), [])
  }

  lemma InlineCallReads(ms: Markers, ps: Parsers, s: State, line: string, rest: string, final: bool)
    requires s.mode.InlineToolCall? && !s.atStart && '\n' !in line && s.pending == line + (['\n'] + rest)
    ensures var t := Step(ms, ps, s, final);
      t.progressed && (t.state, t.events) == AfterLine(ps, s, line, rest)
  {
    LineEnds(line, rest);
  }

  /**
   * A one-line call comes out as the call that its line describes, or not at all if the line is not understood, and
   * the text behind it is read as if it stood alone.
   */
  lemma LineCallComesOut(ms: Markers, ps: Parsers, s: State, line: string, rest: string, final: bool)
    requires Proper(ms) && s.mode.Normal? && Fenceless(ms, s.pending) && '\n' !in line
    requires s.pending == ms.inlineCall + (line + (['\n'] + rest))
    ensures var (after, events) := AfterLine(ps, s, line, rest);
      Drained(ms, ps, s, final) == (Drained(ms, ps, after, final).0, events + Drained(ms, ps, after, final).1)
  {
    var tail := line + (['\n'] + rest);
    FencelessStep(ms, ps, s, final);
    AtTheStart(ms.inlineCall, tail);
    var inside := Enter(s, |ms.inlineCall|, InlineToolCall).state;
    InlineCallReads(ms, ps, inside, line, rest, final);
    DrainedStep(ms, ps, s, final);
    DrainedStep(ms, ps, inside, final);
    var (after, events) := AfterLine(ps, s, line, rest);
    assert [] + (events + Drained(ms, ps, after, final).1) == events + Drained(ms, ps, after, final).1;
  }

  lemma NothingLeft(ms: Markers, ps: Parsers, s: State, final: bool)
    requires Proper(ms) && "" !in AllMarkers(ms) && s.mode.Normal? && s.pending == ""
    ensures Drained(ms, ps, s, final) == (s, [])
  {
    EmptyRests(ms, ps, s, final);
    DrainedStop(ms, ps, s, final);
  }

  /** A one-line call that arrives alone: exactly the call, or nothing, and nothing is pending. */
  lemma LoneLineCall(ms: Markers, ps: Parsers, s: State, line: string, final: bool)
    requires Proper(ms) && "" !in AllMarkers(ms) && s.mode.Normal? && Fenceless(ms, s.pending) && '\n' !in line
    requires s.pending == ms.inlineCall + (line + "\n")
    ensures Drained(ms, ps, s, final)
         == match ps.line(line, s.nextId)
            case Some((call, next)) => (State(Normal, "", false, next), [Tool(call)])
            case None => (State(Normal, "", false, s.nextId), [])
  {
    assert "\n" == ['\n'] + "";
    LineCallComesOut(ms, ps, s, line, "", final);
    var (after, events) := AfterLine(ps, s, line, "");
    NothingLeft(ms, ps, after, final);
    assert events + [] == events;
  }

  /** A one-line call whose line has not ended is kept, and nothing comes out. */
  lemma UnfinishedLineWaits(ms: Markers, ps: Parsers, s: State)
    requires Proper(ms) && s.mode.Normal? && Fenceless(ms, s.pending)
    requires ms.inlineCall <= s.pending && '\n' !in s.pending
    ensures Drained(ms, ps, s, false) == (s, [])
  {
    FencelessStep(ms, ps, s, false);
    AtTheStart(ms.inlineCall, s.pending[|ms.inlineCall|..]);
    assert s.pending == ms.inlineCall + s.pending[|ms.inlineCall|..];
    DrainedStop(ms, ps, s, false);
  }

  /**
   * The follow-up tag: the calls its reader finds come out in order and use up the text. A tag that is not understood
   * waits for more, unless there is too much of it or nothing follows; then it is dropped.
   */
  lemma FollowUpComesOut(ms: Markers, ps: Parsers, s: State, final: bool)
    requires Proper(ms) && "" !in AllMarkers(ms) && s.mode.Normal? && Fenceless(ms, s.pending)
    requires ms.followUp <= s.pending && R.NoneBefore(s.pending, [ms.inlineCall], |s.pending| + 1)
    ensures var r := Drained(ms, ps, s, final);
      match ps.followUps(s.pending, s.nextId)
      case Some((calls, next)) =>
        && r.0 == State(Normal, "", false, next) && |r.1| == |calls|
        && forall i | 0 <= i < |calls| :: r.1[i] == Tool(calls[i])
      case None =>
        r == if final || Bytes(s.pending) > MAX_FOLLOW_UP then (State(Normal, "", false, s.nextId), []) else (s, [])
  {
    FencelessStep(ms, ps, s, final);
    AbsentMarker(s.pending, [ms.inlineCall], ms.inlineCall);
    AtTheStart(ms.followUp, s.pending[|ms.followUp|..]);
    assert s.pending == ms.followUp + s.pending[|ms.followUp|..];
    var t := Step(ms, ps, s, final);
    assert t == FollowUpStep(ps, s, final);
    if t.progressed {
      DrainedStep(ms, ps, s, final);
      NothingLeft(ms, ps, t.state, final);
      assert t.events + [] == t.events;
    } else {
      DrainedStop(ms, ps, s, final);
    }
  }

  /** A bare object at the start of the stream that its reader takes for a call comes out as this call. */
  lemma BareCallComesOut(ms: Markers, ps: Parsers, s: State, final: bool, call: ToolCall, next: nat)
    requires Proper(ms) && "" !in AllMarkers(ms) && s.mode.Normal? && Unmarked(ms, s.pending)
    requires s.atStart && TrimStart(s.pending) != "" && TrimStart(s.pending)[0] == '{'
    requires ps.bare(TrimStart(s.pending), s.nextId) == Some((call, next))
    ensures Drained(ms, ps, s, final) == (State(Normal, "", false, next), [Tool(call)])
  {
    MarkerLists(ms);
    AbsentMarkers(s.pending, AllMarkers(ms), ms.results);
    AbsentMarkers(s.pending, AllMarkers(ms), ms.Openings());
    AbsentMarker(s.pending, AllMarkers(ms), ms.inlineCall);
    AbsentMarker(s.pending, AllMarkers(ms), ms.followUp);
    assert BareCall(ps, s) == Some((call, next));
    DrainedStep(ms, ps, s, final);
    NothingLeft(ms, ps, State(Normal, "", false, next), final);
    assert [Tool(call)] + [] == [Tool(call)];
  }

  // ---------- a result and the text behind it ----------

  /** A one-line result is dropped with its line; what follows is read as if it stood alone. */
  lemma LineResultIsDropped(ms: Markers, ps: Parsers, s: State, line: string, rest: string, final: bool)
    requires Proper(ms) && s.mode.Normal? && ms.inlineResult in ms.results && '\n' !in line
    requires s.pending == ms.inlineResult + (line + (['\n'] + rest))
    ensures Drained(ms, ps, s, final) == Drained(ms, ps, State(Normal, rest, false, s.nextId), final)
  {
    var tail := line + (['\n'] + rest);
    AtTheStart(ms.inlineResult, tail);
    assert R.At(s.pending, ms.inlineResult, 0);
    var found := R.FindMarker(s.pending, ms.results);
    assert found.Some? && found.value.0 == 0;
    var inside := Enter(s, |ms.inlineResult|, IgnoreInlineToolResult).state;
    LineEnds(line, rest);
    DrainedStep(ms, ps, s, final);
    DrainedStep(ms, ps, inside, final);
    var after := Drained(ms, ps, State(Normal, rest, false, s.nextId), final);
    assert [] + ([] + after.1) == after.1;
  }

  /** A call in front of a result marker in the same text is not recognised: it is shown as text. */
  lemma CallBeforeResultIsShown(ms: Markers, ps: Parsers, s: State, text: string, m: string, rest: string, final: bool)
    requires Proper(ms) && Sane(s.mode) && s.mode.Normal? && m in ms.results && text != ""
    requires s.pending == text + (m + rest) && R.NoneBefore(s.pending, ms.results, |text|)
    ensures Drained(ms, ps, s, final).1 != []
    ensures Drained(ms, ps, s, final).1[0] == Text(NormalizeAssistant(ms, text))
  {
    assert s.pending[|text|..] == m + rest && R.At(s.pending, m, |text|);
    assert s.pending[..|text|] == text;
    var found := R.FindMarker(s.pending, ms.results);
    assert found.Some? && found.value.0 == |text|;
    assert Step(ms, ps, s, final) == Say(ms, s, |text|);
    DrainedStep(ms, ps, s, final);
  }

  // ---------- a fenced call in several pieces ----------

  /** A piece of a block without its closing fence is kept, up to the size limit. */
  lemma PieceIsKept(ms: Markers, ps: Parsers, s: State, fence: Fence, body: string, chunk: string)
    requires Proper(ms) && fence.closing != ""
    requires s.mode == ToolBlock(fence, body, false) && s.pending == "" && chunk != ""
    requires Find(chunk, fence.closing).None? && Bytes(chunk) <= MAX_PENDING && Bytes(body + chunk) <= MAX_TOOL_BLOCK
    ensures Fed(ms, ps, s, chunk) == (s.(mode := ToolBlock(fence, body + chunk, false)), [])
  {
    assert "" + chunk == chunk;
    DrainedStop(ms, ps, s.(pending := chunk), false);
  }

  /** The pieces of a block, none of them with the closing fence and all within the limits. */
  ghost predicate Pieces(fence: Fence, body: string, chunks: seq<string>)
    decreases |chunks|
  {
    chunks != [] ==>
      && chunks[0] != "" && Find(chunks[0], fence.closing).None?
      && Bytes(chunks[0]) <= MAX_PENDING && Bytes(body + chunks[0]) <= MAX_TOOL_BLOCK
      && Pieces(fence, body + chunks[0], chunks[1..])
  }

  lemma {:induction false} PiecesAreKept(ms: Markers, ps: Parsers, s: State, fence: Fence, body: string,
                                         chunks: seq<string>)
    requires Proper(ms) && fence.closing != "" && s.mode == ToolBlock(fence, body, false) && s.pending == ""
    requires Pieces(fence, body, chunks)
    ensures FedAll(ms, ps, s, chunks) == (s.(mode := ToolBlock(fence, body + Flatten(chunks), false)), [])
    decreases |chunks|
  {
    var done := ToolBlock(fence, body + Flatten(chunks), false);
    if chunks == [] {
      assert body + Flatten(chunks) == body;
      assert s.(mode := done) == s;
    } else {
      PieceIsKept(ms, ps, s, fence, body, chunks[0]);
      var next := s.(mode := ToolBlock(fence, body + chunks[0], false));
      PiecesAreKept(ms, ps, next, fence, body + chunks[0], chunks[1..]);
      Associative(body, chunks[0], Flatten(chunks[1..]));
      var more := FedAll(ms, ps, next, chunks[1..]);
      assert FedAll(ms, ps, s, chunks) == (more.0, [] + more.1);
      assert body + chunks[0] + Flatten(chunks[1..]) == body + Flatten(chunks);
      assert next.(mode := done) == s.(mode := done);
      assert more == (next.(mode := done), []);
      assert [] + more.1 == more.1;
    }
  }

  /**
   * A fenced call in any number of pieces, the closing fence whole in the last one: it comes out as the call that the
   * joined body describes.
   */
  lemma FencedCallInPieces(ms: Markers, ps: Parsers, s: State, fence: Fence, body: string, chunks: seq<string>,
                           end: string)
    requires Proper(ms) && "" !in AllMarkers(ms) && fence.closing != ""
    requires s.mode == ToolBlock(fence, body, false) && s.pending == "" && !s.atStart
    requires Pieces(fence, body, chunks) && Bytes(end + fence.closing) <= MAX_PENDING
    requires Find(end + fence.closing, fence.closing) == Some(|end|)
    ensures var before := FedAll(ms, ps, s, chunks);
      before.1 == [] && Sane(before.0.mode) &&
      Fed(ms, ps, before.0, end + fence.closing)
        == match ps.block(body + Flatten(chunks) + end, s.nextId)
           case Some((call, next)) => (State(Normal, "", false, next), [Tool(call)])
           case None => (State(Normal, "", false, s.nextId), [])
  {
    PiecesAreKept(ms, ps, s, fence, body, chunks);
    var whole := body + Flatten(chunks);
    LastPieceCloses(ms, ps, s.(mode := ToolBlock(fence, whole, false)), fence, whole, end);
  }

  lemma BlockEnds(ps: Parsers, s: State, fence: Fence, body: string, end: string)
    requires s.pending == end + fence.closing && !s.atStart
    requires Find(s.pending, fence.closing) == Some(|end|)
    ensures BlockStep(ps, s, fence, body, false, false)
         == match ps.block(body + end, s.nextId)
            case Some((call, next)) => Stepped(State(Normal, "", false, next), [Tool(call)], true)
            case None => Stepped(State(Normal, "", false, s.nextId), [], true)
  {
    hide Find;
    assert s.pending[..|end|] == end && s.pending[|end| + |fence.closing|..] == "";
  }

  lemma LastPieceCloses(ms: Markers, ps: Parsers, s: State, fence: Fence, body: string, end: string)
    requires Proper(ms) && "" !in AllMarkers(ms) && fence.closing != ""
    requires s.mode == ToolBlock(fence, body, false) && s.pending == "" && !s.atStart
    requires Bytes(end + fence.closing) <= MAX_PENDING && Find(end + fence.closing, fence.closing) == Some(|end|)
    ensures Fed(ms, ps, s, end + fence.closing)
         == match ps.block(body + end, s.nextId)
            case Some((call, next)) => (State(Normal, "", false, next), [Tool(call)])
            case None => (State(Normal, "", false, s.nextId), [])
  {
    hide AllMarkers, Proper, Drained, NormalStep, BlockStep, Find;
    var last := s.(pending := end + fence.closing);
    assert "" + (end + fence.closing) == end + fence.closing;
    BlockEnds(ps, last, fence, body, end);
    var t := Step(ms, ps, last, false);
    DrainedStep(ms, ps, last, false);
    NothingLeft(ms, ps, t.state, false);
    assert t.events + [] == t.events;
  }
}
