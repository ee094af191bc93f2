/** Splits a model's text into reasoning and answer at textual markers, over any chunking. */
module Reasoning {
  import opened Prelude
  import opened Text
  import opened ModelProjection

  /** The markers that open and close the reasoning. */
  datatype Markers = Markers(open: seq<string>, close: seq<string>)

  const MARKERS := Markers(["<thinking>", "<think>", "[Thinking]:", "[thinking]:"], ["</thinking>", "</think>"])

  datatype Phase = Detecting | Response | Reasoning | Completed

  // ---------- markers ----------

  /** The marker occurs in the text at this position. */
  predicate At(text: string, marker: string, p: nat) {
    p <= |text| && marker <= text[p..]
  }

  /** The first of the markers that the buffer starts with. */
  function MatchingMarkerLen(buffer: string, markers: seq<string>): (n: Option<nat>)
    ensures n.Some? ==> exists m :: m in markers && m <= buffer && n.value == |m|
    ensures n.None? ==> forall m | m in markers :: !(m <= buffer)
  {
    if markers == [] then None
    else if markers[0] <= buffer then Some(|markers[0]|)
    else
      assert forall m | m in markers :: m == markers[0] || m in markers[1..];
      MatchingMarkerLen(buffer, markers[1..])
  }

  /** The longest proper prefix of the marker, of at most `n` characters, that the text ends with. */
  function PartialSuffixUpTo(text: string, marker: string, n: nat): (len: nat)
    requires n < |marker| || n == 0
    ensures len <= n && EndsWith(text, marker[..len])
    ensures forall k | len < k <= n :: !EndsWith(text, marker[..k])
  {
    if n == 0 then 0
    else if EndsWith(text, marker[..n]) then n
    else PartialSuffixUpTo(text, marker, n - 1)
  }

  function PartialSuffixLen(text: string, marker: string): (len: nat)
    ensures len <= |text| && (marker != "" ==> len < |marker|)
    ensures marker != "" ==> EndsWith(text, marker[..len])
    ensures forall k | len < k < |marker| :: !EndsWith(text, marker[..k])
  {
    if marker == "" then 0 else
    PartialSuffixUpTo(text, marker, if |text| < |marker| - 1 then |text| else |marker| - 1)
  }

  /** The longest suffix of the text that may be the beginning of a marker. */
  function PartialSuffix(text: string, markers: seq<string>): (len: nat)
    ensures len <= |text|
    ensures forall m, k | m in markers && len < k < |m| :: !EndsWith(text, m[..k])
    ensures len > 0 ==> exists m :: m in markers && len < |m| && EndsWith(text, m[..len])
  {
    if markers == [] then 0
    else
      var first, rest := PartialSuffixLen(text, markers[0]), PartialSuffix(text, markers[1..]);
      if rest > first then rest else first
  }

  /** No marker occurs before position `n`. */
  ghost predicate NoneBefore(buffer: string, markers: seq<string>, n: nat) {
    forall m, p | m in markers && 0 <= p < n :: !At(buffer, m, p)
  }

  /** `r` is the place and the length of a leftmost marker. */
  ghost predicate Leftmost(buffer: string, markers: seq<string>, r: Option<(nat, nat)>) {
    match r
    case None => NoneBefore(buffer, markers, |buffer| + 1)
    case Some(found) =>
      && NoneBefore(buffer, markers, found.0)
      && exists m :: m in markers && At(buffer, m, found.0) && found.1 == |m|
  }

  /** The leftmost marker: where it is and how long it is. */
  function FindMarker(buffer: string, markers: seq<string>): (r: Option<(nat, nat)>)
    ensures Leftmost(buffer, markers, r)
    ensures r.Some? ==> r.value.0 + r.value.1 <= |buffer|
  {
    if markers == [] then None
    else
      match (Find(buffer, markers[0]), FindMarker(buffer, markers[1..]))
      case (None, rest) => rest
      case (Some(i), None) => Some((i, |markers[0]|))
      case (Some(i), Some(r)) => if r.0 < i then Some(r) else Some((i, |markers[0]|))
  }

  // ---------- the detector ----------

  datatype State = State(phase: Phase, pending: string)

  function Start(supportsReasoning: bool): State {
    State(if supportsReasoning then Detecting else Response, "")
  }

  function Thought(text: string): seq<ModelEvent> {
    if text == "" then [] else [ReasoningDelta(text)]
  }

  function Said(text: string): seq<ModelEvent> {
    if text == "" then [] else [TextDelta(text)]
  }

  /** All reasoning and all text of a stream of events. */
  datatype Output = Output(thought: string, text: string)

  predicate Inside(body: string, r: Option<(nat, nat)>) {
    r.Some? ==> r.value.0 + r.value.1 <= |body|
  }

  /** A body cut at a marker, which is left out. */
  function Cut(body: string, r: Option<(nat, nat)>): Output
    requires Inside(body, r)
  {
    match r
    case None => Output(body, "")
    case Some(found) => Output(body[..found.0], body[found.0 + found.1..])
  }

  /** The events of a body that holds a close marker. */
  function CutEvents(body: string, found: (nat, nat)): seq<ModelEvent>
    requires Inside(body, Some(found))
  {
    var pieces := Cut(body, Some(found));
    Thought(pieces.thought) + Said(pieces.text)
  }

  /** How much of a body cannot be part of a close marker that is still incomplete. */
  function Released(ms: Markers, body: string): (n: nat)
    ensures n <= |body|
  {
    |body| - PartialSuffix(body, ms.close)
  }

  /** Reasoning with `pending` in hand: up to the first close marker, or up to what may become one. */
  function FedBody(ms: Markers, pending: string): (State, seq<ModelEvent>) {
    match FindMarker(pending, ms.close)
    case Some(found) => (State(Response, ""), CutEvents(pending, found))
    case None => (State(Reasoning, pending[Released(ms, pending)..]), Thought(pending[..Released(ms, pending)]))
  }

  /** How much of a buffer cannot be part of an open marker that is still incomplete. */
  function Undoubted(ms: Markers, buffer: string): (n: nat)
    ensures n <= |buffer|
  {
    |buffer| - PartialSuffix(buffer, ms.open)
  }

  /** Detecting with `pending` in hand. */
  function FedDetecting(ms: Markers, pending: string): (State, seq<ModelEvent>) {
    match MatchingMarkerLen(pending, ms.open)
    case Some(n) =>
      if pending[n..] == "" then (State(Reasoning, ""), []) else FedBody(ms, pending[n..])
    case None =>
      var split := Undoubted(ms, pending);
      if split == 0 then (State(Detecting, pending), [])
      else (State(Response, pending[split..]), [TextDelta(pending[..split])])
  }

  /** One delta. */
  function Fed(ms: Markers, s: State, delta: string): (State, seq<ModelEvent>) {
    if delta == "" then (s, [])
    else match s.phase
      case Response => (s, [TextDelta(delta)])
      case Detecting => FedDetecting(ms, s.pending + delta)
      case Reasoning => FedBody(ms, s.pending + delta)
      case Completed => (s, [])
  }

  /** The end of the stream: whatever is pending is flushed in the current phase. */
  function Flushed(s: State): seq<ModelEvent> {
    match s.phase
    case Reasoning => Thought(s.pending)
    case Completed => []
    case _ => Said(s.pending)
  }

  class ReasoningDetector {
    const markers: Markers
    var phase: Phase
    var pending: string

    function View(): State
      reads this
    {
      State(phase, pending)
    }

    constructor (supportsReasoning: bool)
      ensures View() == Start(supportsReasoning) && markers == MARKERS
    {
      markers := MARKERS;
      phase, pending := if supportsReasoning then Detecting else Response, "";
    }

    method Feed(delta: string) returns (events: seq<ModelEvent>)
      modifies this
      ensures (View(), events) == Fed(markers, old(View()), delta)
    {
      if delta == "" { return []; }
      match phase {
        case Response => events := [TextDelta(delta)];
        case Detecting => events := FeedDetecting(delta);
        case Reasoning => events := FeedBody(delta);
        case Completed => events := [];
      }
    }

    /** The open marker is dropped; what follows it is the beginning of the body. */
    method EnterReasoning(markerLen: nat) returns (events: seq<ModelEvent>)
      requires markerLen <= |pending|
      modifies this
      ensures var rest := old(pending[markerLen..]);
        (View(), events) == if rest == "" then (State(Reasoning, ""), []) else FedBody(markers, rest)
    {
      var rest := pending[markerLen..];
      phase, pending := Reasoning, "";
      events := [];
      if rest != "" {
        assert "" + rest == rest;
        events := FeedBody(rest);
      }
    }

    method FeedDetecting(delta: string) returns (events: seq<ModelEvent>)
      requires phase.Detecting?
      modifies this
      ensures (View(), events) == FedDetecting(markers, old(pending) + delta)
    {
      pending := pending + delta;
      var marker := MatchingMarkerLen(pending, markers.open);
      if marker.Some? {
        events := EnterReasoning(marker.value);
        return;
      }
      var keep := PartialSuffix(pending, markers.open);
      if |pending| <= keep { return []; }
      var splitAt := |pending| - keep;
      var response := pending[..splitAt];
      pending, phase := pending[splitAt..], Response;
      events := [TextDelta(response)];
    }

    method FeedBody(delta: string) returns (events: seq<ModelEvent>)
      requires phase.Reasoning?
      modifies this
      ensures (View(), events) == FedBody(markers, old(pending) + delta)
    {
      pending := pending + delta;
      var found := FindMarker(pending, markers.close);
      if found.Some? {
        var reasoning, response := pending[..found.value.0], pending[found.value.0 + found.value.1..];
        pending, phase := "", Response;
        events := [];
        if reasoning != "" { events := events + [ReasoningDelta(reasoning)]; }
        if response != "" { events := events + [TextDelta(response)]; }
        assert events == Thought(reasoning) + Said(response);
        return;
      }
      var keep := PartialSuffix(pending, markers.close);
      var splitAt := |pending| - keep;
      var reasoning := pending[..splitAt];
      pending := pending[splitAt..];
      events := if reasoning == "" then [] else [ReasoningDelta(reasoning)];
    }

    method Finish() returns (events: seq<ModelEvent>)
      modifies this
      ensures View() == State(Completed, "") && events == Flushed(old(View()))
    {
      var rest := pending;
      pending := "";
      events := [];
      if rest != "" {
        match phase {
          case Reasoning => events := [ReasoningDelta(rest)];
          case Detecting | Response => events := [TextDelta(rest)];
          case Completed =>
        }
      }
      phase := Completed;
    }
  }

  /** Everything the detector emits for a chunked stream, the end included. */
  function Emitted(ms: Markers, s: State, chunks: seq<string>): seq<ModelEvent>
    decreases |chunks|
  {
    if chunks == [] then Flushed(s)
    else
      var (next, events) := Fed(ms, s, chunks[0]);
      events + Emitted(ms, next, chunks[1..])
  }

  // ---------- where markers can be ----------

  /** No marker begins another one. */
  ghost predicate PrefixFree(markers: seq<string>) {
    forall m, n | m in markers && n in markers && m <= n :: m == n
  }

  /** Every marker starts with this character and has it nowhere else. */
  ghost predicate StartWith(markers: seq<string>, c: char) {
    forall m | m in markers :: m != "" && m[0] == c && c !in m[1..]
  }

  /** Every marker has its first character nowhere else. */
  ghost predicate StartOnce(markers: seq<string>) {
    forall m | m in markers :: m != "" && m[0] !in m[1..]
  }

  /** What the proofs need to know about the markers. */
  ghost predicate Proper(ms: Markers) {
    && PrefixFree(ms.open) && StartOnce(ms.open)
    && PrefixFree(ms.close) && StartWith(ms.close, '<')
  }

  lemma MarkersAreProper()
    ensures Proper(MARKERS)
  {
    CloseMarkers();
    OpenMarkers();
  }

  lemma CloseMarkers()
    ensures PrefixFree(MARKERS.close) && StartWith(MARKERS.close, '<')
  {
    assert MARKERS.close[0][7] != MARKERS.close[1][7];
  }

  lemma NoPrefix(a: string, b: string, k: nat)
    requires k < |a| && k < |b| && a[k] != b[k]
    ensures !(a <= b) && !(b <= a)
  {
  }

  lemma FourDiffer(a: string, b: string, c: string, d: string)
    requires |a| > 6 && |b| > 6 && |c| > 6 && |d| > 6
    requires a[6] != b[6] && c[1] != d[1]
    requires a[0] == b[0] && c[0] == d[0] && a[0] != c[0]
    ensures PrefixFree([a, b, c, d])
  {
    NoPrefix(a, b, 6);
    NoPrefix(c, d, 1);
    NoPrefix(a, c, 0);
    NoPrefix(a, d, 0);
    NoPrefix(b, c, 0);
    NoPrefix(b, d, 0);
  }

  lemma OpenMarkers()
    ensures PrefixFree(MARKERS.open) && StartOnce(MARKERS.open)
  {
    OpenMarkersStartOnce();
    var ms := MARKERS.open;
    assert ms == [ms[0], ms[1], ms[2], ms[3]];
    FourDiffer(ms[0], ms[1], ms[2], ms[3]);
  }

  lemma OpenMarkersStartOnce()
    ensures StartOnce(MARKERS.open)
  {
  }

  /** The leftmost marker is unique. */
  lemma LeftmostIsUnique(markers: seq<string>, text: string, r: Option<(nat, nat)>, q: Option<(nat, nat)>)
    requires PrefixFree(markers) && Leftmost(text, markers, r) && Leftmost(text, markers, q)
    ensures r == q
  {
  }

  lemma AtAppend(a: string, b: string, m: string, p: nat)
    requires p <= |a|
    ensures p + |m| <= |a| ==> (At(a + b, m, p) <==> At(a, m, p))
    ensures At(a + b, m, p) && p + |m| > |a| ==> EndsWith(a, m[..|a| - p])
  {
  }

  /** A marker cannot start inside the beginning of another one. */
  lemma NoOverlap(markers: seq<string>, c: char, text: string, m: string, n: string, p: nat, q: nat)
    requires StartWith(markers, c) && m in markers && n in markers && At(text, m, p) && q < p < q + |n|
    ensures !At(text, n, q)
  {
  }

  /** A marker that was found stays the leftmost one, whatever follows. */
  lemma FoundMarkerStays(markers: seq<string>, c: char, a: string, b: string, r: (nat, nat))
    requires PrefixFree(markers) && StartWith(markers, c) && Leftmost(a, markers, Some(r))
    ensures Leftmost(a + b, markers, Some(r))
  {
    var m :| m in markers && At(a, m, r.0) && r.1 == |m|;
    AtAppend(a, b, m, r.0);
    forall n, q | n in markers && 0 <= q < r.0
      ensures !At(a + b, n, q)
    {
      AtAppend(a, b, n, q);
      if q + |n| > |a| { NoOverlap(markers, c, a + b, m, n, r.0, q); }
    }
  }

  /** What was let go holds no beginning of a marker, whatever follows. */
  lemma NothingStartsBeforeSplit(markers: seq<string>, a: string, b: string)
    requires Leftmost(a, markers, None)
    ensures NoneBefore(a + b, markers, |a| - PartialSuffix(a, markers))
  {
    forall m, q | m in markers && 0 <= q < |a| - PartialSuffix(a, markers)
      ensures !At(a + b, m, q)
    {
      AtAppend(a, b, m, q);
    }
  }

  function Shifted(r: Option<(nat, nat)>, skip: nat): Option<(nat, nat)> {
    match r
    case None => None
    case Some(found) => Some((skip + found.0, found.1))
  }

  lemma AtShift(a: string, b: string, m: string, q: nat)
    ensures At(a + b, m, |a| + q) <==> At(b, m, q)
  {
  }

  /** The search may skip a prefix in which no marker starts. */
  lemma SearchSkips(markers: seq<string>, a: string, b: string, r: Option<(nat, nat)>)
    requires NoneBefore(a + b, markers, |a|) && Leftmost(b, markers, r)
    ensures Leftmost(a + b, markers, Shifted(r, |a|))
  {
    forall m, q | m in markers && |a| <= q
      ensures At(a + b, m, q) <==> At(b, m, q - |a|)
    {
      AtShift(a, b, m, q - |a|);
    }
    if r.Some? {
      var m :| m in markers && At(b, m, r.value.0) && r.value.1 == |m|;
      AtShift(a, b, m, r.value.0);
    }
  }

  // ---------- what comes out ----------

  function ThoughtOf(events: seq<ModelEvent>): string {
    if events == [] then ""
    else ThoughtOf(events[..|events| - 1])
         + (if events[|events| - 1].ReasoningDelta? then events[|events| - 1].text else "")
  }

  function OutputOf(events: seq<ModelEvent>): Output {
    Output(ThoughtOf(events), TextOf(events))
  }

  lemma {:induction false} ThoughtAppend(a: seq<ModelEvent>, b: seq<ModelEvent>)
    ensures ThoughtOf(a + b) == ThoughtOf(a) + ThoughtOf(b)
  {
    if b == [] {
      assert a + b == a;
    } else {
      var n := |b| - 1;
      assert (a + b)[..|a + b| - 1] == a + b[..n];
      ThoughtAppend(a, b[..n]);
    }
  }

  lemma {:induction false} TextAppend(a: seq<ModelEvent>, b: seq<ModelEvent>)
    ensures TextOf(a + b) == TextOf(a) + TextOf(b)
  {
    if b == [] {
      assert a + b == a;
    } else {
      var n := |b| - 1;
      assert (a + b)[..|a + b| - 1] == a + b[..n];
      TextAppend(a, b[..n]);
    }
  }

  lemma OutputAppend(a: seq<ModelEvent>, b: seq<ModelEvent>)
    ensures OutputOf(a + b) == Output(ThoughtOf(a) + ThoughtOf(b), TextOf(a) + TextOf(b))
  {
    ThoughtAppend(a, b);
    TextAppend(a, b);
  }

  lemma OutputOfPieces(thought: string, text: string)
    ensures OutputOf(Thought(thought) + Said(text)) == Output(thought, text)
    ensures OutputOf(Thought(thought)) == Output(thought, "") && OutputOf(Said(text)) == Output("", text)
  {
    OutputAppend(Thought(thought), Said(text));
    assert [ReasoningDelta(thought)][..0] == [] && [TextDelta(text)][..0] == [];
  }

  /** The reference: reasoning up to the leftmost close marker, the answer after it. */
  function SplitBody(ms: Markers, body: string): Output {
    Cut(body, FindMarker(body, ms.close))
  }

  lemma CutAfterPrefix(a: string, b: string, r: Option<(nat, nat)>)
    requires Inside(b, r)
    ensures Inside(a + b, Shifted(r, |a|))
    ensures Cut(a + b, Shifted(r, |a|)) == Output(a + Cut(b, r).thought, Cut(b, r).text)
  {
  }

  lemma CutBeforeSuffix(a: string, b: string, found: (nat, nat))
    requires Inside(a, Some(found))
    ensures Cut(a + b, Some(found)) == Output(Cut(a, Some(found)).thought, Cut(a, Some(found)).text + b)
  {
  }

  /** Once the answer has begun, everything is text; a withheld suffix comes last. */
  lemma {:induction false} AnswerPassesThrough(ms: Markers, withheld: string, chunks: seq<string>)
    ensures OutputOf(Emitted(ms, State(Response, withheld), chunks)) == Output("", Flatten(chunks) + withheld)
    decreases |chunks|
  {
    if chunks == [] {
      OutputOfPieces("", withheld);
      assert "" + withheld == withheld;
    } else {
      var (next, events) := Fed(ms, State(Response, withheld), chunks[0]);
      AnswerPassesThrough(ms, withheld, chunks[1..]);
      assert next == State(Response, withheld) && events == Said(chunks[0]);
      OutputOfPieces("", chunks[0]);
      OutputAppend(events, Emitted(ms, next, chunks[1..]));
      Associative(chunks[0], Flatten(chunks[1..]), withheld);
    }
  }

  /** A model without reasoning: every character comes out as text, in order. */
  lemma WithoutReasoning(ms: Markers, chunks: seq<string>)
    ensures OutputOf(Emitted(ms, Start(false), chunks)) == Output("", Flatten(chunks))
  {
    AnswerPassesThrough(ms, "", chunks);
    assert Flatten(chunks) + "" == Flatten(chunks);
  }

  /** A body that begins with emitted text splits where the rest of it does. */
  lemma BodyFoundLater(ms: Markers, emitted: string, rest: string)
    requires Proper(ms)
    requires NoneBefore(emitted + rest, ms.close, |emitted|)
    ensures SplitBody(ms, emitted + rest) == Output(emitted + SplitBody(ms, rest).thought, SplitBody(ms, rest).text)
  {
    var r := FindMarker(rest, ms.close);
    SearchSkips(ms.close, emitted, rest, r);
    LeftmostIsUnique(ms.close, emitted + rest, FindMarker(emitted + rest, ms.close), Shifted(r, |emitted|));
    CutAfterPrefix(emitted, rest, r);
  }

  lemma BodyFoundNow(ms: Markers, body: string, later: string, r: (nat, nat))
    requires Proper(ms)
    requires FindMarker(body, ms.close) == Some(r)
    ensures SplitBody(ms, body + later) == Output(Cut(body, Some(r)).thought, Cut(body, Some(r)).text + later)
  {
    FoundMarkerStays(ms.close, '<', body, later, r);
    LeftmostIsUnique(ms.close, body + later, FindMarker(body + later, ms.close), Some(r));
    CutBeforeSuffix(body, later, r);
  }

  /** While reasoning: whatever the chunks, what comes out is the split of the whole body. */
  lemma {:induction false} BodySplits(ms: Markers, pending: string, chunks: seq<string>)
    requires Proper(ms)
    requires FindMarker(pending, ms.close).None?
    ensures OutputOf(Emitted(ms, State(Reasoning, pending), chunks)) == SplitBody(ms, pending + Flatten(chunks))
    decreases |chunks|, 0
  {
    if chunks == [] {
      OutputOfPieces(pending, "");
      assert pending + "" == pending;
    } else if chunks[0] == "" {
      BodySplits(ms, pending, chunks[1..]);
      var later := Emitted(ms, State(Reasoning, pending), chunks[1..]);
      assert [] + later == later;
      assert "" + Flatten(chunks[1..]) == Flatten(chunks[1..]);
    } else {
      Associative(pending, chunks[0], Flatten(chunks[1..]));
      FedBodySplits(ms, pending + chunks[0], chunks[1..]);
    }
  }

  lemma {:induction false} FedBodySplits(ms: Markers, body: string, chunks: seq<string>)
    requires Proper(ms)
    ensures var (next, events) := FedBody(ms, body);
      OutputOf(events + Emitted(ms, next, chunks)) == SplitBody(ms, body + Flatten(chunks))
    decreases |chunks|, 1
  {
    var next := FedBody(ms, body).0;
    if next.phase.Response? {
      AnswerPassesThrough(ms, "", chunks);
    } else {
      KeptHasNoMarker(ms, body, Released(ms, body));
      BodySplits(ms, next.pending, chunks);
    }
    FedBodyOutput(ms, body, Flatten(chunks), Emitted(ms, next, chunks));
  }

  lemma FedBodyOutput(ms: Markers, body: string, later: string, more: seq<ModelEvent>)
    requires Proper(ms)
    requires var next := FedBody(ms, body).0;
      OutputOf(more) == if next.phase.Response? then Output("", later + "") else SplitBody(ms, next.pending + later)
    ensures OutputOf(FedBody(ms, body).1 + more) == SplitBody(ms, body + later)
  {
    var r := FindMarker(body, ms.close);
    if r.Some? {
      MarkerEndsBody(ms, body, later, r.value, more);
    } else {
      BodyGoesOn(ms, body, later, more);
    }
  }

  lemma MarkerEndsBody(ms: Markers, body: string, later: string, r: (nat, nat), more: seq<ModelEvent>)
    requires Proper(ms)
    requires FindMarker(body, ms.close) == Some(r) && OutputOf(more) == Output("", later + "")
    ensures OutputOf(CutEvents(body, r) + more) == SplitBody(ms, body + later)
  {
    BodyFoundNow(ms, body, later, r);
    var pieces := Cut(body, Some(r));
    PiecesFirst(pieces.thought, pieces.text, more, later);
  }

  lemma PiecesFirst(thought: string, text: string, more: seq<ModelEvent>, later: string)
    requires OutputOf(more) == Output("", later + "")
    ensures OutputOf(Thought(thought) + Said(text) + more) == Output(thought, text + later)
  {
    OutputOfPieces(thought, text);
    OutputAppend(Thought(thought) + Said(text), more);
    assert later + "" == later && thought + "" == thought;
  }

  lemma BodyGoesOn(ms: Markers, body: string, later: string, more: seq<ModelEvent>)
    requires Proper(ms)
    requires FindMarker(body, ms.close).None?
    requires OutputOf(more) == SplitBody(ms, body[Released(ms, body)..] + later)
    ensures OutputOf(Thought(body[..Released(ms, body)]) + more) == SplitBody(ms, body + later)
  {
    BodyPrefixEmitted(ms, body, later, Released(ms, body));
    ThoughtFirst(body[..Released(ms, body)], more);
  }

  lemma ThoughtFirst(thought: string, more: seq<ModelEvent>)
    ensures OutputOf(Thought(thought) + more) == Output(thought + ThoughtOf(more), TextOf(more))
  {
    OutputOfPieces(thought, "");
    OutputAppend(Thought(thought), more);
    assert "" + TextOf(more) == TextOf(more);
  }

  lemma BodyPrefixEmitted(ms: Markers, body: string, later: string, split: nat)
    requires Proper(ms)
    requires FindMarker(body, ms.close).None? && split == Released(ms, body)
    ensures var rest := SplitBody(ms, body[split..] + later);
      SplitBody(ms, body + later) == Output(body[..split] + rest.thought, rest.text)
  {
    NothingStartsBeforeSplit(ms.close, body, later);
    SplitTogether(body, later, split);
    BodyFoundLater(ms, body[..split], body[split..] + later);
  }

  lemma SplitTogether(body: string, later: string, split: nat)
    requires split <= |body|
    ensures body[..split] + (body[split..] + later) == body + later && |body[..split]| == split
  {
  }

  lemma SuffixHasNoMarker(markers: seq<string>, a: string, b: string)
    requires NoneBefore(a + b, markers, |a + b| + 1)
    ensures NoneBefore(b, markers, |b| + 1)
  {
    forall m, q | m in markers && 0 <= q <= |b|
      ensures !At(b, m, q)
    {
      AtShift(a, b, m, q);
    }
  }

  lemma KeptHasNoMarker(ms: Markers, body: string, split: nat)
    requires split <= |body| && FindMarker(body, ms.close).None?
    ensures FindMarker(body[split..], ms.close).None?
  {
    assert body == body[..split] + body[split..];
    SuffixHasNoMarker(ms.close, body[..split], body[split..]);
  }

  // ---------- input that begins with an open marker ----------

  lemma MatchIsUnique(markers: seq<string>, buffer: string, m: string)
    requires PrefixFree(markers) && m in markers && m <= buffer
    ensures MatchingMarkerLen(buffer, markers) == Some(|m|)
  {
  }

  /** The beginning of a marker is not a marker, and is kept whole. */
  lemma BeginningIsKept(markers: seq<string>, buffer: string, m: string)
    requires PrefixFree(markers) && m in markers && buffer < m
    ensures MatchingMarkerLen(buffer, markers).None? && PartialSuffix(buffer, markers) == |buffer|
  {
    forall n | n in markers
      ensures !(n <= buffer)
    {
      assert n <= buffer ==> n <= m;
    }
    assert m[..|buffer|] == buffer && EndsWith(buffer, m[..|buffer|]);
  }

  /** A buffer of an input that begins with a marker either shows it or is kept whole. */
  lemma MarkerSeen(markers: seq<string>, buffer: string, rest: string, m: string)
    requires PrefixFree(markers) && m in markers && m <= buffer + rest
    ensures if m <= buffer then MatchingMarkerLen(buffer, markers) == Some(|m|)
            else buffer < m && MatchingMarkerLen(buffer, markers).None? && PartialSuffix(buffer, markers) == |buffer|
  {
    if m <= buffer {
      MatchIsUnique(markers, buffer, m);
    } else {
      assert |buffer| < |m| && (buffer + rest)[..|buffer|] == buffer;
      BeginningIsKept(markers, buffer, m);
    }
  }

  /**
   * For input that begins with an open marker, in any chunks: the reasoning is the text up to the first close marker,
   * the answer is everything after it.
   */
  lemma {:induction false} MarkedInputSplits(ms: Markers, pending: string, chunks: seq<string>, m: string, body: string)
    requires Proper(ms)
    requires m in ms.open && pending < m && pending + Flatten(chunks) == m + body
    ensures OutputOf(Emitted(ms, State(Detecting, pending), chunks)) == SplitBody(ms, body)
    decreases |chunks|
  {
    assert |pending| < |m + body|;
    assert pending + "" == pending;
    var chunk, later := chunks[0], Flatten(chunks[1..]);
    if chunk == "" {
      assert "" + later == later;
      MarkedInputSplits(ms, pending, chunks[1..], m, body);
      var later := Emitted(ms, State(Detecting, pending), chunks[1..]);
      assert [] + later == later;
    } else {
      var buffer := pending + chunk;
      Associative(pending, chunk, later);
      assert m <= m + body;
      MarkerSeen(ms.open, buffer, later, m);
      if m <= buffer {
        MarkerComplete(ms, buffer, chunks[1..], m, body);
      } else {
        MarkedInputSplits(ms, buffer, chunks[1..], m, body);
        StillDetecting(ms, buffer, chunks[1..]);
      }
    }
  }

  /** The result for the markers of the program and a fresh detector. */
  lemma ChunksDoNotMatter(chunks: seq<string>, m: string, body: string)
    requires m in MARKERS.open && Flatten(chunks) == m + body
    ensures OutputOf(Emitted(MARKERS, Start(true), chunks)) == SplitBody(MARKERS, body)
  {
    MarkersAreProper();
    var ms := MARKERS;
    assert m != "" && "" + Flatten(chunks) == Flatten(chunks);
    MarkedInputSplits(ms, "", chunks, m, body);
  }

  lemma StillDetecting(ms: Markers, buffer: string, chunks: seq<string>)
    requires MatchingMarkerLen(buffer, ms.open).None? && Undoubted(ms, buffer) == 0
    ensures var (next, events) := FedDetecting(ms, buffer);
      events + Emitted(ms, next, chunks) == Emitted(ms, State(Detecting, buffer), chunks)
  {
  }

  lemma MarkerComplete(ms: Markers, buffer: string, chunks: seq<string>, m: string, body: string)
    requires Proper(ms) && m <= buffer && MatchingMarkerLen(buffer, ms.open) == Some(|m|)
    requires buffer + Flatten(chunks) == m + body
    ensures var (next, events) := FedDetecting(ms, buffer);
      OutputOf(events + Emitted(ms, next, chunks)) == SplitBody(ms, body)
  {
    BodyAfterMarker(buffer, Flatten(chunks), m, body);
    DetectedOutput(ms, buffer[|m|..], chunks, buffer, m);
  }

  lemma BodyAfterMarker(buffer: string, later: string, m: string, body: string)
    requires m <= buffer && buffer + later == m + body
    ensures buffer[|m|..] + later == body
  {
    assert (buffer + later)[|m|..] == buffer[|m|..] + later;
    assert (m + body)[|m|..] == body;
  }

  lemma DetectedOutput(ms: Markers, rest: string, chunks: seq<string>, buffer: string, m: string)
    requires Proper(ms)
    requires MatchingMarkerLen(buffer, ms.open) == Some(|m|) && m <= buffer && rest == buffer[|m|..]
    ensures var (next, events) := FedDetecting(ms, buffer);
      OutputOf(events + Emitted(ms, next, chunks)) == SplitBody(ms, rest + Flatten(chunks))
  {
    if rest == "" {
      NoMarkerInNothing(ms);
      BodySplits(ms, "", chunks);
      var more := Emitted(ms, State(Reasoning, ""), chunks);
      assert [] + more == more;
    } else {
      FedBodySplits(ms, rest, chunks);
    }
  }

  lemma NoMarkerInNothing(ms: Markers)
    requires Proper(ms)
    ensures FindMarker("", ms.close).None?
  {
  }

  // ---------- input without an open marker at its beginning ----------

  /** What detection let go when it ended, the suffix it withheld, and the text after it. */
  datatype Detection = Undecided | Decided(released: string, withheld: string, later: string)

  /** How detection ends for an input that does not begin with an open marker. */
  function Detect(ms: Markers, pending: string, chunks: seq<string>): Detection
    decreases |chunks|
  {
    if chunks == [] then Undecided
    else
      var buffer := pending + chunks[0];
      var split := Undoubted(ms, buffer);
      if chunks[0] == "" || split == 0 then Detect(ms, buffer, chunks[1..])
      else Decided(buffer[..split], buffer[split..], Flatten(chunks[1..]))
  }

  predicate BeginsWithMarker(ms: Markers, text: string) {
    exists m :: m in ms.open && m <= text
  }

  lemma NoMarkerInPrefix(ms: Markers, buffer: string, later: string)
    requires !BeginsWithMarker(ms, buffer + later)
    ensures MatchingMarkerLen(buffer, ms.open).None?
  {
  }

  /** Everything comes out as text, but a withheld suffix comes out last. */
  lemma {:induction false} UnmarkedInput(ms: Markers, pending: string, chunks: seq<string>)
    requires !BeginsWithMarker(ms, pending + Flatten(chunks))
    ensures var text := pending + Flatten(chunks);
      match Detect(ms, pending, chunks)
      case Undecided => OutputOf(Emitted(ms, State(Detecting, pending), chunks)) == Output("", text)
      case Decided(a, w, later) =>
        && text == a + (w + later)
        && OutputOf(Emitted(ms, State(Detecting, pending), chunks)) == Output("", a + (later + w))
    decreases |chunks|
  {
    if chunks == [] {
      OutputOfPieces("", pending);
      assert pending + "" == pending;
    } else {
      var buffer, later := pending + chunks[0], Flatten(chunks[1..]);
      Associative(pending, chunks[0], later);
      NoMarkerInPrefix(ms, buffer, later);
      if chunks[0] == "" || Undoubted(ms, buffer) == 0 {
        assert chunks[0] == "" ==> buffer == pending;
        UnmarkedInput(ms, buffer, chunks[1..]);
        var more := Emitted(ms, State(Detecting, buffer), chunks[1..]);
        assert [] + more == more;
      } else {
        SplitTogether(buffer, later, Undoubted(ms, buffer));
        DetectionDecided(ms, buffer, chunks[1..]);
      }
    }
  }

  lemma DetectionDecided(ms: Markers, buffer: string, chunks: seq<string>)
    requires MatchingMarkerLen(buffer, ms.open).None? && Undoubted(ms, buffer) > 0
    ensures var (next, events) := FedDetecting(ms, buffer);
      OutputOf(events + Emitted(ms, next, chunks))
      == Output("", buffer[..Undoubted(ms, buffer)] + (Flatten(chunks) + buffer[Undoubted(ms, buffer)..]))
  {
    var withheld := buffer[Undoubted(ms, buffer)..];
    AnswerPassesThrough(ms, withheld, chunks);
    SaidFirst(buffer[..Undoubted(ms, buffer)], Emitted(ms, State(Response, withheld), chunks));
  }

  lemma SaidFirst(text: string, more: seq<ModelEvent>)
    requires text != "" && ThoughtOf(more) == ""
    ensures OutputOf([TextDelta(text)] + more) == Output("", text + TextOf(more))
  {
    OutputOfPieces("", text);
    OutputAppend(Said(text), more);
    assert "" + "" == "";
  }

  function Repeated(w: string, n: nat): string {
    if n == 0 then "" else w + Repeated(w, n - 1)
  }

  /** A text commutes with a word whose first character occurs once in it only as a repetition of that word. */
  lemma {:induction false} CommutesOnlyAsRepetition(w: string, later: string) returns (n: nat)
    requires w != "" && (forall k | 0 < k < |w| :: w[k] != w[0]) && later + w == w + later
    ensures later == Repeated(w, n)
    decreases |later|
  {
    n := 0;
    if 0 < |later| < |w| {
      ShorterNeverCommutes(w, later);
    } else if later != "" {
      var rest := later[|w|..];
      assert (later + w)[..|w|] == later[..|w|] && (w + later)[..|w|] == w;
      assert later == w + rest;
      Associative(w, rest, w);
      assert ((w + rest) + w)[|w|..] == rest + w && (w + (w + rest))[|w|..] == w + rest;
      n := CommutesOnlyAsRepetition(w, rest);
      n := n + 1;
    }
  }

  lemma ShorterNeverCommutes(w: string, later: string)
    requires 0 < |later| < |w| && forall k | 0 < k < |w| :: w[k] != w[0]
    ensures later + w != w + later
  {
    assert (later + w)[|later|] == w[0];
    assert (w + later)[|later|] == w[|later|];
  }

  lemma {:induction false} RepetitionCommutes(w: string, n: nat)
    ensures Repeated(w, n) + w == w + Repeated(w, n)
  {
    if n == 0 {
      assert "" + w == w + "";
    } else {
      RepetitionCommutes(w, n - 1);
      Associative(w, Repeated(w, n - 1), w);
    }
  }

  /** A withheld suffix is the beginning of a marker, so its first character occurs once in it. */
  lemma WithheldStartsOnce(ms: Markers, buffer: string)
    requires StartOnce(ms.open)
    ensures var w := buffer[Undoubted(ms, buffer)..]; forall k | 0 < k < |w| :: w[k] != w[0]
  {
  }

  lemma {:induction false} DetectedWithheld(ms: Markers, pending: string, chunks: seq<string>)
    requires StartOnce(ms.open)
    ensures var d := Detect(ms, pending, chunks);
      d.Decided? ==> forall k | 0 < k < |d.withheld| :: d.withheld[k] != d.withheld[0]
    decreases |chunks|
  {
    if chunks != [] {
      WithheldStartsOnce(ms, pending + chunks[0]);
      DetectedWithheld(ms, pending + chunks[0], chunks[1..]);
    }
  }

  /**
   * When an input without an open marker keeps its text: exactly if nothing was withheld when detection ended, or
   * the text after it only repeats what was withheld.
   */
  lemma TextIsKeptExactlyWhen(ms: Markers, chunks: seq<string>)
    requires StartOnce(ms.open) && !BeginsWithMarker(ms, Flatten(chunks))
    ensures var d := Detect(ms, "", chunks);
      OutputOf(Emitted(ms, Start(true), chunks)) == Output("", Flatten(chunks))
      <==> d.Undecided? || d.withheld == "" || exists n: nat :: d.later == Repeated(d.withheld, n)
  {
    assert "" + Flatten(chunks) == Flatten(chunks);
    UnmarkedInput(ms, "", chunks);
    var d := Detect(ms, "", chunks);
    if d.Decided? {
      DetectedWithheld(ms, "", chunks);
      WithheldLast(d.released, d.withheld, d.later);
    }
  }

  lemma WithheldLast(a: string, w: string, later: string)
    requires forall k | 0 < k < |w| :: w[k] != w[0]
    ensures a + (later + w) == a + (w + later) <==> w == "" || exists n: nat :: later == Repeated(w, n)
  {
    Cancellation(a, later + w, w + later);
    if w == "" {
      assert later + w == later && w + later == later;
    } else {
      if later + w == w + later { var _ := CommutesOnlyAsRepetition(w, later); }
      if n: nat :| later == Repeated(w, n) { RepetitionCommutes(w, n); }
    }
  }

  lemma Cancellation(a: string, x: string, y: string)
    ensures a + x == a + y <==> x == y
  {
    assert (a + x)[|a|..] == x && (a + y)[|a|..] == y;
  }

  lemma PartialSuffixIs(buffer: string, markers: seq<string>, m: string, k: nat)
    requires m in markers && k < |m| && EndsWith(buffer, m[..k])
    requires forall n, j | n in markers && k < j < |n| :: !EndsWith(buffer, n[..j])
    ensures PartialSuffix(buffer, markers) == k
  {
  }

  /** A chunk that ends with the first character of a marker, then one more character: they come out swapped. */
  lemma WithheldSuffixComesLast(ms: Markers, x: char, m: string, y: char)
    requires m in ms.open && |m| > 1 && forall n | n in ms.open :: n != "" && n[0] != x
    ensures TextOf(Emitted(ms, Start(true), [[x, m[0]], [y]])) == [x, y, m[0]]
  {
    var first, second := [x, m[0]], [y];
    assert EndsWith(first, m[..1]);
    forall n, j | n in ms.open && 1 < j < |n|
      ensures !EndsWith(first, n[..j])
    {
      assert n[..j][0] == n[0];
    }
    PartialSuffixIs(first, ms.open, m, 1);
    assert Undoubted(ms, first) == 1;
    TwoChunks(ms, first, second);
  }

  lemma TwoChunks(ms: Markers, first: string, second: string)
    requires |first| == 2 && |second| == 1 && Undoubted(ms, first) == 1
    requires forall n | n in ms.open :: n != "" && n[0] != first[0]
    ensures TextOf(Emitted(ms, Start(true), [first, second])) == [first[0], second[0], first[1]]
  {
    var chunks := [first, second];
    assert chunks[1..] == [second] && [second][1..] == [] && "" + first == first;
    assert Flatten([second]) == second + "" == second;
    forall m | m in ms.open
      ensures !(m <= "" + Flatten(chunks))
    {
      assert ("" + Flatten(chunks))[0] == first[0];
    }
    UnmarkedInput(ms, "", chunks);
  }

  /** With the real markers: the chunks `a<` and `b` come out as `ab<`. */
  lemma AngleBracketComesLast()
    ensures TextOf(Emitted(MARKERS, Start(true), [['a', '<'], ['b']])) == ['a', 'b', '<']
  {
    var ms := MARKERS;
    var m := ms.open[0];
    assert m[0] == '<';
    WithheldSuffixComesLast(ms, 'a', m, 'b');
  }

  // ---------- order ----------

  predicate Wordless(events: seq<ModelEvent>) {
    forall i | 0 <= i < |events| :: !events[i].TextDelta?
  }

  predicate Thoughtless(events: seq<ModelEvent>) {
    forall i | 0 <= i < |events| :: !events[i].ReasoningDelta?
  }

  lemma OrderAfterThoughts(a: seq<ModelEvent>, b: seq<ModelEvent>)
    requires Wordless(a) && WellOrdered(b)
    ensures WellOrdered(a + b)
  {
  }

  lemma OrderBeforeText(a: seq<ModelEvent>, b: seq<ModelEvent>)
    requires WellOrdered(a) && Thoughtless(b)
    ensures WellOrdered(a + b)
  {
  }

  lemma {:induction false} AnswerIsThoughtless(ms: Markers, withheld: string, chunks: seq<string>)
    ensures Thoughtless(Emitted(ms, State(Response, withheld), chunks))
    decreases |chunks|
  {
    if chunks != [] { AnswerIsThoughtless(ms, withheld, chunks[1..]); }
  }

  /** Whatever the input and the chunks, reasoning never comes after text, so the projection never refuses the order. */
  lemma {:induction false} DetectorKeepsOrder(ms: Markers, s: State, chunks: seq<string>)
    ensures WellOrdered(Emitted(ms, s, chunks))
    decreases |chunks|
  {
    if chunks != [] {
      var (next, events) := Fed(ms, s, chunks[0]);
      DetectorKeepsOrder(ms, next, chunks[1..]);
      if next.phase.Response? {
        AnswerIsThoughtless(ms, next.pending, chunks[1..]);
        FedIsOrdered(ms, s, chunks[0]);
        OrderBeforeText(events, Emitted(ms, next, chunks[1..]));
      } else {
        FedIsOrdered(ms, s, chunks[0]);
        OrderAfterThoughts(events, Emitted(ms, next, chunks[1..]));
      }
    }
  }

  lemma FedIsOrdered(ms: Markers, s: State, delta: string)
    ensures WellOrdered(Fed(ms, s, delta).1)
    ensures !Fed(ms, s, delta).0.phase.Response? ==> Wordless(Fed(ms, s, delta).1)
  {
    if delta != "" && s.phase.Detecting? {
      var found := MatchingMarkerLen(s.pending + delta, ms.open);
      if found.Some? { BodyIsOrdered(ms, (s.pending + delta)[found.value..]); }
    } else if delta != "" && s.phase.Reasoning? {
      BodyIsOrdered(ms, s.pending + delta);
    }
  }

  lemma BodyIsOrdered(ms: Markers, body: string)
    ensures WellOrdered(FedBody(ms, body).1)
    ensures !FedBody(ms, body).0.phase.Response? ==> Wordless(FedBody(ms, body).1)
  {
    var r := FindMarker(body, ms.close);
    if r.Some? {
      OrderBeforeText(Thought(body[..r.value.0]), Said(body[r.value.0 + r.value.1..]));
    }
  }
}
