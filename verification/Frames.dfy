/** Line framing of the model stream. What a line means is an arbitrary stateful step. */
module Frames {
  import opened Prelude
  import opened Text
  import U = Utf8

  const MAX_BUFFER_BYTES: nat := 64 * 1024 * 1024
  const MAX_FRAME_BYTES: nat := 8 * 1024 * 1024

  /** Reads one trimmed line: the JSON reader and `decode_value` together. */
  type Step<!S, !V> = (S, string) -> (S, seq<V>)

  function TrimNewlines(s: string): string {
    if s != "" && (s[|s| - 1] == '\r' || s[|s| - 1] == '\n') then TrimNewlines(s[..|s| - 1]) else s
  }

  /** Blank lines and the anti-hijacking prefix carry no frame. */
  function DecodeLine<S, V>(step: Step<S, V>, state: S, line: string): (S, seq<V>) {
    var trimmed := Trim(line);
    if trimmed == "" || trimmed == ")]}'" then (state, []) else step(state, trimmed)
  }

  /** The state, the buffer and the events after every complete line of the buffer was decoded. */
  datatype Drained<S, V> = Drained(state: S, buf: string, events: seq<V>)

  function Drain<S, V>(step: Step<S, V>, state: S, buf: string): (d: Drained<S, V>)
    ensures '\n' !in d.buf
    decreases |buf|
  {
    match IndexOf(buf, '\n')
    case None => Drained(state, buf, [])
    case Some(pos) =>
      var (next, events) := DecodeLine(step, state, TrimNewlines(buf[..pos + 1]));
      var more := Drain(step, next, buf[pos + 1..]);
      Drained(more.state, more.buf, events + more.events)
  }

  class GeminiFrameDecoder<S, V> {
    const step: Step<S, V>
    const initial: S
    var state: S
    var buf: string

    constructor (step: Step<S, V>, initial: S)
      ensures this.step == step && this.initial == initial && state == initial && buf == ""
    {
      this.step, this.initial, state, buf := step, initial, initial, "";
    }

    method Clear()
      modifies this
      ensures state == initial && buf == ""
    {
      state, buf := initial, "";
    }

    method Feed(chunk: string) returns (events: seq<V>)
      modifies this
      ensures
        if chunk == "" then events == [] && buf == old(buf) && state == old(state)
        else if Bytes(old(buf) + chunk) > MAX_BUFFER_BYTES && '\n' !in old(buf) + chunk then
          events == [] && buf == "" && state == old(state)
        else Drained(state, buf, events) == Drain(step, old(state), old(buf) + chunk)
    {
      events := [];
      if chunk == "" { return; }
      buf := buf + chunk;
      if Bytes(buf) > MAX_BUFFER_BYTES && '\n' !in buf {
        buf := "";
        return;
      }
      ghost var whole := Drain(step, state, buf);
      while '\n' in buf
        invariant var d := Drain(step, state, buf);
          Drained(d.state, d.buf, events + d.events) == whole
        decreases |buf|
      {
        var pos := IndexOf(buf, '\n').value;
        var line := buf[..pos + 1];
        buf := buf[pos + 1..];
        var (next, decoded) := DecodeLine(step, state, TrimNewlines(line));
        Associative(events, decoded, Drain(step, next, buf).events);
        state, events := next, events + decoded;
      }
    }

    method Finish() returns (events: seq<V>)
      modifies this
      ensures buf == ""
      ensures (state, events) == DecodeLine(step, old(state), TrimNewlines(old(buf)))
    {
      if Trim(buf) == "" {
        TrimIgnoresNewlines(buf);
        buf := "";
        return [];
      }
      var line := buf;
      buf := "";
      var (next, decoded) := DecodeLine(step, state, TrimNewlines(line));
      state, events := next, decoded;
    }
  }

  // ---------- trimming ----------

  lemma {:induction false} TrimStartSnoc(s: string, c: char)
    requires IsWhitespace(c)
    ensures TrimStart(s + [c]) == if TrimStart(s) == "" then "" else TrimStart(s) + [c]
  {
    if s != "" && IsWhitespace(s[0]) {
      assert (s + [c])[1..] == s[1..] + [c];
      TrimStartSnoc(s[1..], c);
    } else if s == "" {
      assert (s + [c])[1..] == "";
    }
  }

  /** A trailing blank makes no difference to the trimmed text. */
  lemma TrimSnoc(s: string, c: char)
    requires IsWhitespace(c)
    ensures Trim(s + [c]) == Trim(s)
  {
    TrimStartSnoc(s, c);
    var t := TrimStart(s);
    assert (t + [c])[..|t|] == t;
  }

  lemma {:induction false} TrimIgnoresNewlines(s: string)
    ensures Trim(TrimNewlines(s)) == Trim(s)
  {
    if s != "" && (s[|s| - 1] == '\r' || s[|s| - 1] == '\n') {
      TrimIgnoresNewlines(s[..|s| - 1]);
      TrimSnoc(s[..|s| - 1], s[|s| - 1]);
      assert s == s[..|s| - 1] + [s[|s| - 1]];
    }
  }

  // ---------- the reference: decode the whole text line by line ----------

  /** The lines of a text: the pieces between its newlines. */
  function Pieces(text: string): (lines: seq<string>)
    decreases |text|
  {
    match IndexOf(text, '\n')
    case None => [text]
    case Some(pos) => [text[..pos]] + Pieces(text[pos + 1..])
  }

  function FoldLines<S, V>(step: Step<S, V>, state: S, lines: seq<string>): (S, seq<V>)
    decreases |lines|
  {
    if lines == [] then (state, [])
    else
      var (next, events) := DecodeLine(step, state, lines[0]);
      var (last, more) := FoldLines(step, next, lines[1..]);
      (last, events + more)
  }

  /** A line without a frame: blank, or the prefix against hijacking. */
  predicate Frameless(line: string) {
    Trim(line) == "" || Trim(line) == [')', ']', '}', '\'']
  }

  /** Lines without a frame make no difference, wherever they stand. */
  lemma {:induction false} FramelessLinesAreSkipped<S, V>(step: Step<S, V>, state: S, a: seq<string>, line: string,
                                                         b: seq<string>)
    requires Frameless(line)
    ensures FoldLines(step, state, a + ([line] + b)) == FoldLines(step, state, a + b)
    decreases |a|
  {
    if a == [] {
      assert a + ([line] + b) == [line] + b && a + b == b && ([line] + b)[1..] == b;
      assert [] + FoldLines(step, state, b).1 == FoldLines(step, state, b).1;
    } else {
      var (next, _) := DecodeLine(step, state, a[0]);
      assert (a + ([line] + b))[1..] == a[1..] + ([line] + b) && (a + b)[1..] == a[1..] + b;
      FramelessLinesAreSkipped(step, next, a[1..], line, b);
    }
  }

  /** Every other line is read once, trimmed, in its turn. */
  lemma FramesAreRead<S, V>(step: Step<S, V>, state: S, line: string, b: seq<string>)
    requires !Frameless(line)
    ensures var (next, events) := step(state, Trim(line));
      var (last, more) := FoldLines(step, next, b);
      FoldLines(step, state, [line] + b) == (last, events + more)
  {
    assert ([line] + b)[1..] == b;
  }

  /** Draining the whole text and decoding the rest as a last line is folding over the lines. */
  lemma {:induction false} DrainFolds<S, V>(step: Step<S, V>, state: S, text: string)
    ensures var d := Drain(step, state, text);
      var (last, events) := DecodeLine(step, d.state, TrimNewlines(d.buf));
      FoldLines(step, state, Pieces(text)) == (last, d.events + events)
    decreases |text|
  {
    match IndexOf(text, '\n') {
      case None =>
        TrimIgnoresNewlines(text);
        var (next, events) := DecodeLine(step, state, text);
        assert [text][1..] == [] && events + [] == events && [] + events == events;
      case Some(pos) =>
        TrimIgnoresNewlines(text[..pos + 1]);
        TrimSnoc(text[..pos], '\n');
        assert text[..pos + 1] == text[..pos] + ['\n'];
        var (next, events) := DecodeLine(step, state, text[..pos]);
        DrainFolds(step, next, text[pos + 1..]);
        var d := Drain(step, next, text[pos + 1..]);
        var (last, more) := DecodeLine(step, d.state, TrimNewlines(d.buf));
        Associative(events, d.events, more);
        assert ([text[..pos]] + Pieces(text[pos + 1..]))[1..] == Pieces(text[pos + 1..]);
    }
  }

  /** Text that arrives later is decoded as if it had been there from the start. */
  lemma {:induction false} DrainAppend<S, V>(step: Step<S, V>, state: S, a: string, b: string)
    ensures var first := Drain(step, state, a);
      var second := Drain(step, first.state, first.buf + b);
      Drain(step, state, a + b) == Drained(second.state, second.buf, first.events + second.events)
    decreases |a|
  {
    match IndexOf(a, '\n') {
      case None =>
        var d := Drain(step, state, a + b);
        assert [] + d.events == d.events;
      case Some(pos) =>
        var rest := a[pos + 1..];
        assert a == a[..pos] + (['\n'] + rest) && a + b == a[..pos] + (['\n'] + (rest + b));
        IndexOfFirst(a[..pos], '\n', rest + b);
        assert (a + b)[..pos + 1] == a[..pos + 1] && (a + b)[pos + 1..] == rest + b;
        var (next, events) := DecodeLine(step, state, TrimNewlines(a[..pos + 1]));
        DrainAppend(step, next, rest, b);
        var first := Drain(step, next, rest);
        var second := Drain(step, first.state, first.buf + b);
        Associative(events, first.events, second.events);
    }
  }

  // ---------- from bytes to frame events ----------

  lemma {:induction false} BytesAppend(a: string, b: string)
    ensures Bytes(a + b) == Bytes(a) + Bytes(b)
  {
    if a == "" {
      assert a + b == b;
    } else {
      assert (a + b)[1..] == a[1..] + b;
      BytesAppend(a[1..], b);
    }
  }

  /** The pending line is no longer than the text it comes from. */
  lemma {:induction false} PendingIsSuffix<S, V>(step: Step<S, V>, state: S, text: string)
    ensures Bytes(Drain(step, state, text).buf) <= Bytes(text)
    decreases |text|
  {
    match IndexOf(text, '\n') {
      case None =>
      case Some(pos) =>
        var (next, _) := DecodeLine(step, state, TrimNewlines(text[..pos + 1]));
        PendingIsSuffix(step, next, text[pos + 1..]);
        SuffixIsShorter(text, pos + 1);
    }
  }

  lemma SuffixIsShorter(text: string, k: nat)
    requires k <= |text|
    ensures Bytes(text[k..]) <= Bytes(text)
  {
    assert text == text[..k] + text[k..];
    BytesAppend(text[..k], text[k..]);
  }

  /** No line is longer than a frame may be. */
  predicate AllFit(lines: seq<string>) {
    forall i | 0 <= i < |lines| :: Bytes(lines[i]) <= MAX_FRAME_BYTES
  }

  lemma FirstPiece(line: string, rest: string)
    requires '\n' !in line
    ensures Pieces(line + (['\n'] + rest)) == [line] + Pieces(rest)
  {
    IndexOfFirst(line, '\n', rest);
    var text := line + (['\n'] + rest);
    assert text[..|line|] == line && text[|line| + 1..] == rest;
  }

  lemma {:induction false} PiecesAppend(a: string, b: string)
    ensures var p := Pieces(a);
      p != [] && Pieces(a + b) == p[..|p| - 1] + Pieces(p[|p| - 1] + b)
    decreases |a|
  {
    match IndexOf(a, '\n') {
      case None =>
        NothingInFront(Pieces(a + b));
      case Some(pos) =>
        var line, rest := a[..pos], a[pos + 1..];
        assert a == line + (['\n'] + rest) && a + b == line + (['\n'] + (rest + b));
        PiecesAppend(rest, b);
        FirstPiece(line, rest);
        FirstPiece(line, rest + b);
        OneInFront(line, Pieces(rest), Pieces(Pieces(rest)[|Pieces(rest)| - 1] + b));
    }
  }

  lemma NothingInFront(lines: seq<string>)
    ensures [] + lines == lines
  {
  }

  lemma OneInFront(line: string, p: seq<string>, more: seq<string>)
    requires p != []
    ensures ([line] + p)[|[line] + p| - 1] == p[|p| - 1]
    ensures [line] + (p[..|p| - 1] + more) == ([line] + p)[..|[line] + p| - 1] + more
  {
  }

  /** What is pending is the last line so far. */
  lemma {:induction false} PendingIsLast<S, V>(step: Step<S, V>, state: S, text: string)
    ensures Pieces(text) != [] && Drain(step, state, text).buf == Pieces(text)[|Pieces(text)| - 1]
    decreases |text|
  {
    match IndexOf(text, '\n') {
      case None =>
      case Some(pos) =>
        var (next, _) := DecodeLine(step, state, TrimNewlines(text[..pos + 1]));
        PendingIsLast(step, next, text[pos + 1..]);
    }
  }

  lemma {:induction false} PiecesAreShorter(text: string)
    ensures forall i | 0 <= i < |Pieces(text)| :: Bytes(Pieces(text)[i]) <= Bytes(text)
    decreases |text|
  {
    match IndexOf(text, '\n') {
      case None =>
      case Some(pos) =>
        PiecesAreShorter(text[pos + 1..]);
        assert text == text[..pos] + (['\n'] + text[pos + 1..]);
        BytesAppend(text[..pos], ['\n'] + text[pos + 1..]);
        SuffixIsShorter(text, pos + 1);
    }
  }

  /** A piece that is let in completes no line that is too long. */
  lemma PieceFits<S, V>(step: Step<S, V>, s0: S, text: string, piece: string)
    requires AllFit(Pieces(text)) && Bytes(Drain(step, s0, text).buf) + Bytes(piece) <= MAX_FRAME_BYTES
    ensures AllFit(Pieces(text + piece))
  {
    hide Drain, Pieces, Bytes;
    PendingIsLast(step, s0, text);
    PiecesAppend(text, piece);
    var p := Pieces(text);
    BytesAppend(p[|p| - 1], piece);
    PiecesAreShorter(p[|p| - 1] + piece);
  }

  /** The events so far are those of the text so far. */
  ghost predicate UpTo<S, V>(d: GeminiFrameDecoder<S, V>, s0: S, text: string, events: seq<V>)
    reads d
  {
    Drained(d.state, d.buf, events) == Drain(d.step, s0, text)
  }

  /** `feed_decoded_text`: `None` when a frame grows beyond the limit. */
  method FeedDecodedText<S, V>(d: GeminiFrameDecoder<S, V>, text: string, ghost s0: S, ghost before: string,
                               events: seq<V>) returns (r: Option<seq<V>>)
    requires UpTo(d, s0, before, events) && text != ""
    modifies d
    ensures r.Some? ==> UpTo(d, s0, before + text, r.value)
    ensures r.Some? && AllFit(Pieces(before)) ==> AllFit(Pieces(before + text))
    ensures r.None? <==> old(Bytes(d.buf)) + Bytes(text) > MAX_FRAME_BYTES
  {
    BytesAppend(d.buf, text);
    if Bytes(d.buf) + Bytes(text) > MAX_FRAME_BYTES { return None; }
    DrainAppend(d.step, s0, before, text);
    if AllFit(Pieces(before)) { PieceFits(d.step, s0, before, text); }
    var more := d.Feed(text);
    r := Some(events + more);
  }

  /**
   * The receive loop over one response body. Every frame event is the one that decoding the whole text line by line
   * gives, whatever the chunks. A frame beyond the size limit is never decoded, and only that stops the loop.
   */
  method ReadStream<S, V>(chunks: seq<seq<U.Byte>>, d: GeminiFrameDecoder<S, V>) returns (r: Option<seq<V>>)
    requires '\n' !in d.buf
    modifies d
    ensures var text := old(d.buf) + U.Decoded([], chunks);
      && (r.Some? ==> r.value == FoldLines(d.step, old(d.state), Pieces(text)).1)
      && (Bytes(text) <= MAX_FRAME_BYTES ==> r.Some?)
      && (r.Some? && Bytes(old(d.buf)) <= MAX_FRAME_BYTES ==> AllFit(Pieces(text)))
  {
    var utf8 := new U.IncrementalUtf8();
    var queue := chunks;
    ghost var s0, text, all := d.state, d.buf, d.buf + U.Decoded([], chunks);
    var events: seq<V> := [];
    while queue != []
      invariant UpTo(d, s0, text, events)
      invariant text + U.Decoded(utf8.residual, queue) == all
      invariant Bytes(old(d.buf)) <= MAX_FRAME_BYTES ==> AllFit(Pieces(text))
      invariant fresh(utf8)
      decreases |queue|
    {
      U.DecodedNext(utf8.residual, queue);
      var piece := utf8.Push(queue[0]);
      queue := queue[1..];
      var fed := FeedPiece(d, piece, s0, text, U.Decoded(utf8.residual, queue), all, events);
      if fed.None? { return None; }
      events, text := fed.value, text + piece;
    }
    var tail := utf8.Finish();
    NothingFollows(tail);
    var fed := FeedPiece(d, tail, s0, text, "", all, events);
    if fed.None? { return None; }
    DrainFolds(d.step, s0, all);
    var last := d.Finish();
    r := Some(fed.value + last);
  }

  lemma NothingFollows(tail: string)
    ensures tail + "" == tail && Flatten<char>([]) + tail == tail
  {
  }

  /** Feeds one decoded piece, if it is not empty. */
  method FeedPiece<S, V>(d: GeminiFrameDecoder<S, V>, piece: string, ghost s0: S, ghost text: string,
                         ghost later: string, ghost all: string, events: seq<V>) returns (r: Option<seq<V>>)
    requires UpTo(d, s0, text, events) && text + (piece + later) == all
    modifies d
    ensures r.Some? ==> UpTo(d, s0, text + piece, r.value) && (text + piece) + later == all
    ensures r.Some? && AllFit(Pieces(text)) ==> AllFit(Pieces(text + piece))
    ensures Bytes(all) <= MAX_FRAME_BYTES ==> r.Some?
  {
    Associative(text, piece, later);
    if piece == "" {
      assert text + piece == text;
      return Some(events);
    }
    FitsSoFar(d.step, s0, text, piece, later);
    r := FeedDecodedText(d, piece, s0, text, events);
  }

  /** A frame that is too long is part of a text that is too long. */
  lemma FitsSoFar<S, V>(step: Step<S, V>, s0: S, text: string, piece: string, later: string)
    ensures Bytes(text + (piece + later)) <= MAX_FRAME_BYTES ==>
      Bytes(Drain(step, s0, text).buf) + Bytes(piece) <= MAX_FRAME_BYTES
  {
    PendingIsSuffix(step, s0, text);
    BytesAppend(text, piece + later);
    BytesAppend(piece, later);
  }

  /** A valid stream is read as the text it encodes, wherever it was cut: any two splits of it give the same frames. */
  lemma ValidStreamIsItsText(chunks: seq<seq<U.Byte>>, text: string)
    requires Flatten(chunks) == U.EncodeAll(text)
    ensures U.Decoded([], chunks) == text
  {
    U.DecodingIgnoresChunkBoundaries(chunks, text);
  }
}
