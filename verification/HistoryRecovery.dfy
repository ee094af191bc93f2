/** What the legacy texts preserve: every recoverable entry comes back, and exactly when an assistant text does. */
module HistoryRecovery {
  import opened Prelude
  import opened Text
  import opened Numerals
  import opened Json
  import opened History

  /** No line of the text is taken for a tool call, and none starts a fence that swallows the lines after it. */
  predicate MarkerFree(lines: seq<string>) {
    forall i | 0 <= i < |lines| ::
      && (Trim(lines[i]) == TOOL_CALL_OPEN ==> i == |lines| - 1)
      && ParseToolCallLine(lines[i]).None?
  }

  /** The entries whose text form can be read back. */
  predicate Recoverable(e: HistoryEntry) {
    match e
    case User(_) => true
    case Assistant(content) => LineStable(content) && MarkerFree(Lines(content))
    case ToolCall(id, name, arguments) =>
      id != "" && name != "" && WellFormed(arguments) && Within(arguments, MAX_DEPTH - 1)
    case ToolResult(id, name, _, _) => id != "" || name == "legacy"
  }

  // ---------- assistant texts ----------

  lemma {:induction false} PlainLinesStay(lines: seq<string>, plain: seq<string>)
    requires MarkerFree(lines)
    ensures NormalizeLines(lines, plain) == Flush(plain + lines)
    decreases |lines|
  {
    if lines == [] {
      assert plain + lines == plain;
    } else {
      var (call, rest) := NextCall(lines);
      if Trim(lines[0]) == TOOL_CALL_OPEN {
        assert rest == lines[1..];
      }
      assert forall i | 0 <= i < |rest| :: rest[i] == lines[i + 1];
      PlainLinesStay(rest, plain + [lines[0]]);
      assert plain + [lines[0]] + rest == plain + lines;
    }
  }

  function Newlines(s: string): nat {
    if s == "" then 0 else (if s[0] == '\n' then 1 else 0) + Newlines(s[1..])
  }

  lemma {:induction false} NewlinesAppend(a: string, b: string)
    ensures Newlines(a + b) == Newlines(a) + Newlines(b)
  {
    if a == "" {
      assert a + b == b;
    } else {
      assert (a + b)[1..] == a[1..] + b;
      NewlinesAppend(a[1..], b);
    }
  }

  lemma {:induction false} NoNewlines(s: string)
    requires '\n' !in s
    ensures Newlines(s) == 0
  {
    if s != "" { NoNewlines(s[1..]); }
  }

  predicate AllSingle(lines: seq<string>) {
    forall i | 0 <= i < |lines| :: '\n' !in lines[i]
  }

  lemma {:induction false} LinesAreSingle(s: string)
    ensures AllSingle(Lines(s))
    decreases |s|
  {
    match IndexOf(s, '\n') {
      case None =>
      case Some(i) => LinesAreSingle(s[i + 1..]);
    }
  }

  lemma {:induction false} JoinedNewlines(lines: seq<string>)
    requires lines != [] && AllSingle(lines)
    ensures Newlines(JoinLines(lines)) == |lines| - 1
  {
    NoNewlines(lines[0]);
    if |lines| > 1 {
      var tail := JoinLines(lines[1..]);
      JoinedNewlines(lines[1..]);
      NewlinesAppend(lines[0] + "\n", tail);
      NewlinesAppend(lines[0], "\n");
      assert Newlines("\n") == 1;
    }
  }

  ghost predicate HasCall(entries: seq<HistoryEntry>) {
    exists i :: 0 <= i < |entries| && entries[i].ToolCall?
  }

  /** A text that is not marker-free turns into a call or loses a line. */
  lemma {:induction false} MarkersShow(lines: seq<string>, plain: seq<string>) returns (kept: seq<string>)
    requires AllSingle(lines) && AllSingle(plain)
    ensures !HasCall(NormalizeLines(lines, plain)) ==>
      NormalizeLines(lines, plain) == Flush(kept) && AllSingle(kept) && |kept| <= |plain| + |lines|
    ensures !MarkerFree(lines) && !HasCall(NormalizeLines(lines, plain)) ==> |kept| < |plain| + |lines|
    decreases |lines|
  {
    if lines == [] {
      kept := plain;
    } else {
      var (call, rest) := NextCall(lines);
      assert rest == [] || exists k :: 1 <= k <= |lines| && rest == lines[k..];
      if call.Some? {
        kept := [];
        assert NormalizeLines(lines, plain)[|Flush(plain)|] == CallEntry(call.value);
      } else {
        kept := MarkersShow(rest, plain + [lines[0]]);
        if !MarkerFree(lines) && Trim(lines[0]) != TOOL_CALL_OPEN {
          assert rest == lines[1..];
          MarkerFreeTail(lines);
        }
      }
    }
  }

  lemma MarkerFreeTail(lines: seq<string>)
    requires lines != [] && Trim(lines[0]) != TOOL_CALL_OPEN && ParseToolCallLine(lines[0]).None?
    ensures MarkerFree(lines[1..]) ==> MarkerFree(lines)
  {
  }

  /** An assistant text survives the trip through the legacy form exactly when it is line-stable and marker-free. */
  lemma AssistantTextSurvives(content: string)
    ensures NormalizeLines(Lines(content), []) == [Assistant(content)]
       <==> LineStable(content) && MarkerFree(Lines(content))
  {
    var lines := Lines(content);
    LinesAreSingle(content);
    if MarkerFree(lines) {
      PlainLinesStay(lines, []);
      assert [] + lines == lines;
      if content != "" { LinesRoundTrip(content); }
    } else {
      var kept := MarkersShow(lines, []);
      if !HasCall(NormalizeLines(lines, [])) && kept != [] && JoinLines(kept) == content {
        LinesLoseNothing(content);
        JoinedNewlines(kept);
      }
    }
  }

  /** A text has at most one line more than it has newlines. */
  lemma {:induction false} LinesLoseNothing(s: string)
    ensures |Lines(s)| <= Newlines(s) + 1
    decreases |s|
  {
    if s != "" {
      match IndexOf(s, '\n') {
        case None =>
        case Some(i) =>
          var t := s[i + 1..];
          LinesLoseNothing(t);
          NewlinesAppend(s[..i] + "\n", t);
          NewlinesAppend(s[..i], "\n");
          assert Newlines("\n") == 1;
          assert s == s[..i] + "\n" + t;
      }
    }
  }

  predicate Trimmed(s: string) {
    s != "" && !IsWhitespace(s[0]) && !IsWhitespace(s[|s| - 1])
  }

  lemma TrimFixed(s: string)
    requires Trimmed(s)
    ensures Trim(s) == s
  {
  }

  /** A fence line that is not completed drops the two lines after it. */
  lemma OpenFenceLosesLines(x: string, y: string)
    requires Trim(y) != TOOL_CALL_CLOSE
    ensures NormalizeLines([TOOL_CALL_OPEN, x, y], []) == [Assistant(TOOL_CALL_OPEN)]
  {
    TrimFixed(TOOL_CALL_OPEN);
    var lines := [TOOL_CALL_OPEN, x, y];
    assert lines[1..] == [x, y] && [x, y][2..] == [];
    assert NextCall(lines) == (None, []);
    assert NormalizeLines(lines, []) == NormalizeLines([], [] + [TOOL_CALL_OPEN]);
  }

  // ---------- tool texts ----------

  lemma FirstLineSplits(first: string, more: string)
    requires '\n' !in first && (first == "" || first[|first| - 1] != '\r')
    ensures Lines(first + ("\n" + more)) == [first] + Lines(more)
  {
    IndexOfFirst(first, '\n', more);
    var s := first + ("\n" + more);
    assert s[..|first|] == first && s[|first| + 1..] == more;
    assert Lines(s) == [DropCr(s[..|first|])] + Lines(s[|first| + 1..]);
  }

  lemma EnvelopeIsWellFormed(id: string, name: string, arguments: Json)
    requires WellFormed(arguments)
    ensures var v := CallEnvelope(id, name, arguments);
      && WellFormed(v)
      && (Within(v, MAX_DEPTH) <==> Within(arguments, MAX_DEPTH - 1))
      && Get(v, "name") == Some(JString(name)) && Get(v, "id") == Some(JString(id))
      && Get(v, "arguments") == Some(arguments)
  {
    var v := CallEnvelope(id, name, arguments);
    assert "name"[0] == 'n' && "id"[0] == 'i' && "arguments"[0] == 'a';
    assert DistinctKeys(v.fields);
    assert v.fields[2].value == arguments;
    FieldAt(v.fields, 0);
    FieldAt(v.fields, 1);
    FieldAt(v.fields, 2);
  }

  lemma PayloadIsOneLine(id: string, name: string, arguments: Json)
    requires WellFormed(arguments)
    ensures var payload := Print(CallEnvelope(id, name, arguments));
      CleanLine(payload) && Trim(payload) == payload
  {
    EnvelopeIsWellFormed(id, name, arguments);
    ObjectShape(CallEnvelope(id, name, arguments).fields);
    TrimFixed(Print(CallEnvelope(id, name, arguments)));
  }

  /** A line that splitting gives back as it is. */
  predicate CleanLine(line: string) {
    line != "" && '\n' !in line && line[|line| - 1] != '\r'
  }

  lemma ThreeLines(first: string, second: string, third: string)
    requires CleanLine(first) && CleanLine(second) && CleanLine(third)
    ensures Lines(first + "\n" + (second + "\n" + third)) == [first, second, third]
  {
    var last := second + ("\n" + third);
    assert first + "\n" + (second + "\n" + third) == first + ("\n" + last);
    FirstLineSplits(first, last);
    FirstLineSplits(second, third);
    LastLine(third);
  }

  lemma LastLine(line: string)
    requires CleanLine(line)
    ensures Lines(line) == [line]
  {
  }

  /** The printed call is the three lines of a fence. */
  lemma CallLines(id: string, name: string, arguments: Json)
    requires WellFormed(arguments)
    ensures Lines(FormatToolCall(id, name, arguments))
         == [TOOL_CALL_OPEN, Print(CallEnvelope(id, name, arguments)), TOOL_CALL_CLOSE]
    ensures Trim(Print(CallEnvelope(id, name, arguments))) == Print(CallEnvelope(id, name, arguments))
  {
    PayloadIsOneLine(id, name, arguments);
    ThreeLines(TOOL_CALL_OPEN, Print(CallEnvelope(id, name, arguments)), TOOL_CALL_CLOSE);
  }

  lemma EnvelopeReads(id: string, name: string, arguments: Json)
    requires WellFormed(arguments)
    ensures EnvelopeCall(Print(CallEnvelope(id, name, arguments)))
         == if Recoverable(ToolCall(id, name, arguments)) then Some(Call(name, id, arguments)) else None
  {
    EnvelopeIsWellFormed(id, name, arguments);
    ParseInvertsPrint(CallEnvelope(id, name, arguments));
  }

  lemma FenceReads(payload: string)
    requires Trim(payload) == payload
    ensures NormalizeLines([TOOL_CALL_OPEN, payload, TOOL_CALL_CLOSE], [])
         == match EnvelopeCall(payload)
            case None => [Assistant(TOOL_CALL_OPEN)]
            case Some(call) => [CallEntry(call)]
  {
    var lines := [TOOL_CALL_OPEN, payload, TOOL_CALL_CLOSE];
    TrimFixed(TOOL_CALL_OPEN);
    TrimFixed(TOOL_CALL_CLOSE);
    assert lines[1..] == [payload, TOOL_CALL_CLOSE] && [payload, TOOL_CALL_CLOSE][2..] == [];
    assert NextCall(lines) == (EnvelopeCall(payload), []);
    if EnvelopeCall(payload).None? {
      assert NormalizeLines(lines, []) == NormalizeLines([], [] + [TOOL_CALL_OPEN]);
    }
  }

  /**
   * A tool call is read back from its three lines exactly if it has an identity and a name and its arguments nest
   * no deeper than the envelope allows; otherwise the opening line alone is left of it.
   */
  lemma ToolCallComesBack(id: string, name: string, arguments: Json)
    requires WellFormed(arguments)
    ensures NormalizeLines(Lines(FormatToolCall(id, name, arguments)), [])
         == if id != "" && name != "" && Within(arguments, MAX_DEPTH - 1) then [ToolCall(id, name, arguments)]
            else [Assistant(TOOL_CALL_OPEN)]
  {
    CallLines(id, name, arguments);
    EnvelopeReads(id, name, arguments);
    FenceReads(Print(CallEnvelope(id, name, arguments)));
  }

  // ---------- calls on one line ----------

  function CallHeader(name: string, id: string): string {
    name + (" id=" + id)
  }

  function CallLine(name: string, id: string, arguments: string): string {
    TOOL_CALL_LINE + (CallHeader(name, id) + ([']'] + ([' '] + arguments)))
  }

  /** A name or identity that the header of a call line can carry. */
  predicate Carried(s: string) {
    s != "" && ']' !in s && forall c | c in s :: !IsWhitespace(c)
  }

  lemma CarriedIsTrimmed(s: string)
    requires Carried(s)
    ensures Trimmed(s) && Trim(s) == s
  {
    assert s[0] in s && s[|s| - 1] in s;
    TrimFixed(s);
  }

  lemma HeaderSplits(name: string, id: string)
    requires Carried(name)
    ensures var h := CallHeader(name, id);
      Find(h, " id=") == Some(|name|) && h[..|name|] == name && h[|name| + 4..] == id
  {
    var h := CallHeader(name, id);
    forall k | 0 <= k < |name|
      ensures !(" id=" <= h[k..])
    {
      assert h[k..][0] == name[k] && name[k] in name;
    }
    assert h[|name|..] == " id=" + id;
    assert " id=" <= h[|name|..];
    match Find(h, " id=") {
      case None =>
      case Some(i) => assert h[i..i + 4] == " id=" && " id=" <= h[i..];
    }
  }

  lemma LineSplits(line: string, prefix: string, header: string, tail: string)
    requires line == prefix + (header + ([']'] + tail)) && ']' !in header
    ensures prefix <= line
    ensures var rest := line[|prefix|..];
      IndexOf(rest, ']') == Some(|header|) && rest[..|header|] == header && rest[|header| + 1..] == tail
  {
    var rest := header + ([']'] + tail);
    assert line[|prefix|..] == rest;
    IndexOfFirst(header, ']', tail);
    assert rest[..|header|] == header && rest[|header| + 1..] == tail;
  }

  lemma SpacedTrims(text: string)
    requires Trimmed(text)
    ensures Trim([' '] + text) == text
  {
    assert ([' '] + text)[1..] == text;
    assert TrimStart([' '] + text) == TrimStart(text);
    TrimFixed(text);
  }

  lemma LineReads(line: string, header: string, arguments: string)
    requires line == TOOL_CALL_LINE + (header + ([']'] + ([' '] + arguments)))
    requires ']' !in header && Trimmed(arguments)
    ensures ParseToolCallLine(line) == HeaderCall(header, arguments)
  {
    LineSplits(line, TOOL_CALL_LINE, header, [' '] + arguments);
    SpacedTrims(arguments);
  }

  /** A call line is read as a call exactly if its arguments parse. */
  lemma CallLineReads(name: string, id: string, arguments: string)
    requires Carried(name) && Carried(id) && Trimmed(arguments)
    ensures ParseToolCallLine(CallLine(name, id, arguments))
         == match Parse(arguments)
            case None => None
            case Some(v) => Some(Call(name, id, v))
  {
    HeaderHasNoBracket(name, id);
    LineReads(CallLine(name, id, arguments), CallHeader(name, id), arguments);
    HeaderReads(name, id, arguments);
  }

  lemma HeaderHasNoBracket(name: string, id: string)
    requires Carried(name) && Carried(id)
    ensures ']' !in CallHeader(name, id)
  {
    assert ']' !in " id=";
  }

  lemma HeaderReads(name: string, id: string, arguments: string)
    requires Carried(name) && Carried(id) && arguments != ""
    ensures HeaderCall(CallHeader(name, id), arguments)
         == match Parse(arguments)
            case None => None
            case Some(v) => Some(Call(name, id, v))
  {
    HeaderSplits(name, id);
    CarriedIsTrimmed(name);
    CarriedIsTrimmed(id);
  }

  lemma NumberIsTrimmed(x: Number)
    requires WellWritten(x)
    ensures Trimmed(WriteNumber(x, "")) && '\n' !in WriteNumber(x, "")
  {
    NumberStarts(x, "");
    NumberEndsInDigit(x);
    NumberHasNoNewline(x, "");
  }

  lemma NumberEndsInDigit(x: Number)
    requires WellWritten(x)
    ensures var t := WriteNumber(x, "");
      t != "" && IsDigit(t[|t| - 1])
  {
    var e := WriteExponent(x.exponent, "");
    if e != "" {
      var digits := x.exponent.digits;
      assert digits + "" == digits && digits[|digits| - 1] in digits;
    } else if x.fraction != "" {
      assert x.fraction + "" == x.fraction && x.fraction[|x.fraction| - 1] in x.fraction;
    } else {
      assert x.whole + "" == x.whole && x.whole[|x.whole| - 1] in x.whole;
    }
  }

  /**
   * A line of text with any number of the JSON grammar as its arguments, fraction and exponent included: the line
   * becomes a call, unless the number is out of range and the line stays a text.
   */
  lemma NumberLineBecomesCall(name: string, id: string, x: Number)
    requires Carried(name) && Carried(id) && WellWritten(x)
    ensures var line := CallLine(name, id, WriteNumber(x, ""));
      NormalizeLines(Lines(line), [])
        == match NumberValue(x)
           case None => [Assistant(line)]
           case Some(v) => [ToolCall(id, name, v)]
  {
    var arguments := WriteNumber(x, "");
    NumberIsTrimmed(x);
    NumberAloneParses(x);
    CallLineReads(name, id, arguments);
    CallLineIsOneLine(name, id, arguments);
    LoneLine(CallLine(name, id, arguments));
  }

  lemma LoneLine(line: string)
    requires Lines(line) == [line] && ParseCanonicalToolCall(line, []) == (None, [])
    ensures NormalizeLines(Lines(line), [])
         == match ParseToolCallLine(line)
            case None => [Assistant(line)]
            case Some(call) => [CallEntry(call)]
  {
    assert [line][1..] == [];
    assert NextCall([line]) == (ParseToolCallLine(line), []);
    assert [] + [line] == [line];
  }

  lemma CallLineIsOneLine(name: string, id: string, arguments: string)
    requires Carried(name) && Carried(id) && Trimmed(arguments) && '\n' !in arguments
    ensures var line := CallLine(name, id, arguments);
      Lines(line) == [line] && ParseCanonicalToolCall(line, []) == (None, [])
  {
    var line := CallLine(name, id, arguments);
    assert '\n' !in line by {
      assert IsWhitespace('\n');
    }
    assert line[0] == '[' && line[|line| - 1] == arguments[|arguments| - 1];
    TrimFixed(line);
  }

  /** The smallest case of a fraction. */
  lemma FractionIsReadAsCall()
    ensures NormalizeLines(Lines(CallLine("f", "1", "1.5")), [])
         == [ToolCall("1", "f", JFloat(Number(false, "1", "5", NoExponent)))]
  {
    var x := Number(false, "1", "5", NoExponent);
    assert WriteNumber(x, "") == "1.5";
    ShortNumberIsFinite(x);
    NumberLineBecomesCall("f", "1", x);
  }

  /** A tool result is read back whatever its content. */
  lemma ResultReads(id: string, name: string, content: string, isOk: bool)
    ensures ParseToolResult(FormatToolResult(id, name, content, isOk)) == Some(ResultText(name, id, isOk, content))
  {
    var v := ResultEnvelope(id, name, content, isOk);
    ResultEnvelopeReads(id, name, content, isOk);
    ObjectShape(v.fields);
    ResultTextReads(Print(v), v);
  }

  lemma ResultTextReads(payload: string, v: Json)
    requires Trimmed(payload) && Parse(payload) == Some(v)
    requires AsString(Get(v, "tool")).Some? && AsString(Get(v, "content")).Some?
    ensures ParseToolResult(TOOL_RESULT_PREFIX + ([' '] + payload))
         == Some(ResultText(AsString(Get(v, "tool")).value, AsString(Get(v, "id")).GetOr(""),
                            AsString(Get(v, "status")).GetOr("ok") == "ok", AsString(Get(v, "content")).value))
  {
    PrefixSplits(TOOL_RESULT_PREFIX, [' '] + payload);
    SpacedTrims(payload);
  }

  lemma PrefixSplits(prefix: string, text: string)
    ensures prefix <= prefix + text && (prefix + text)[|prefix|..] == text
  {
  }

  lemma ResultEnvelopeReads(id: string, name: string, content: string, isOk: bool)
    ensures var v := ResultEnvelope(id, name, content, isOk);
      && WellFormed(v) && Parse(Print(v)) == Some(v)
      && Get(v, "tool") == Some(JString(name)) && Get(v, "content") == Some(JString(content))
      && Get(v, "id") == Some(JString(id)) && Get(v, "status") == Some(JString(if isOk then "ok" else "error"))
  {
    var v := ResultEnvelope(id, name, content, isOk);
    assert "content"[0] == 'c' && "id"[0] == 'i' && "status"[0] == 's' && "tool"[0] == 't';
    assert DistinctKeys(v.fields);
    ParseInvertsPrint(v);
    FieldAt(v.fields, 0);
    FieldAt(v.fields, 1);
    FieldAt(v.fields, 2);
    FieldAt(v.fields, 3);
  }

  // ---------- whole histories ----------

  function LegacyOf(entries: seq<HistoryEntry>): seq<Message> {
    seq(|entries|, i requires 0 <= i < |entries| => ToLegacy(entries[i]))
  }

  lemma EntryComesBack(e: HistoryEntry, pending: Pending)
    requires Recoverable(e)
    ensures ReadMessage(ToLegacy(e), pending).0 == [e]
  {
    match e {
      case User(_) =>
      case Assistant(content) => AssistantTextSurvives(content);
      case ToolCall(id, name, arguments) => ToolCallComesBack(id, name, arguments);
      case ToolResult(id, name, content, isOk) => ResultReads(id, name, content, isOk);
    }
  }

  lemma {:induction false} EntriesComeBack(entries: seq<HistoryEntry>, pending: Pending)
    requires forall i | 0 <= i < |entries| :: Recoverable(entries[i])
    ensures NormalizeFrom(LegacyOf(entries), pending) == entries
    decreases |entries|
  {
    if entries != [] {
      var e, more := entries[0], entries[1..];
      assert LegacyOf(entries)[1..] == LegacyOf(more);
      EntryComesBack(e, pending);
      EntriesComeBack(more, ReadMessage(ToLegacy(e), pending).1);
      assert entries == [e] + more;
    }
  }

  /** Normalizing the legacy form of recoverable entries gives exactly these entries, in order. */
  lemma NormalizeInvertsLegacy(entries: seq<HistoryEntry>)
    requires forall i | 0 <= i < |entries| :: Recoverable(entries[i])
    ensures Normalize(LegacyOf(entries)) == entries
  {
    EntriesComeBack(entries, []);
  }

  /** A list of messages is read one after the other. */
  lemma {:induction false} NormalizeSplits(a: seq<Message>, b: seq<Message>, pending: Pending) returns (left: Pending)
    ensures NormalizeFrom(a + b, pending) == NormalizeFrom(a, pending) + NormalizeFrom(b, left)
    decreases |a|
  {
    if a == [] {
      left := pending;
      assert a + b == b;
    } else {
      var (entries, more) := ReadMessage(a[0], pending);
      left := NormalizeSplits(a[1..], b, more);
      assert (a + b)[1..] == a[1..] + b;
      Associative(entries, NormalizeFrom(a[1..], more), NormalizeFrom(b, left));
    }
  }

  /** Recoverable entries at the end of a history come back, whatever is in front of them. */
  lemma LaterEntriesComeBack(earlier: seq<Message>, entries: seq<HistoryEntry>)
    requires forall i | 0 <= i < |entries| :: Recoverable(entries[i])
    ensures var all := Normalize(earlier + LegacyOf(entries));
      |entries| <= |all| && all[|all| - |entries|..] == entries
  {
    var left := NormalizeSplits(earlier, LegacyOf(entries), []);
    EntriesComeBack(entries, left);
  }

  /** The history after some appends to an empty one. */
  function Play(appends: seq<Append>): HistoryState {
    if appends == [] then HistoryState([], [], false)
    else Appended(Play(appends[..|appends| - 1]), appends[|appends| - 1])
  }

  /** Each append carries the corresponding entry, as such or in its legacy form. */
  predicate Carries(appends: seq<Append>, entries: seq<HistoryEntry>) {
    |appends| == |entries| &&
    forall i | 0 <= i < |appends| ::
      appends[i] == Entry(entries[i]) || appends[i] == Tuple(ToLegacy(entries[i]))
  }

  predicate OnlyEntries(appends: seq<Append>) {
    forall i | 0 <= i < |appends| :: appends[i].Entry?
  }

  lemma {:induction false} LegacyNeverLags(appends: seq<Append>, entries: seq<HistoryEntry>)
    requires Carries(appends, entries)
    ensures Play(appends).legacy == LegacyOf(entries)
    ensures Play(appends).dirty <==> appends != [] && appends[|appends| - 1].Tuple?
    ensures if OnlyEntries(appends) then Play(appends).canonical == entries
            else |Play(appends).canonical| < |entries|
  {
    if appends != [] {
      var n := |appends| - 1;
      LegacyNeverLags(appends[..n], entries[..n]);
      assert entries == entries[..n] + [entries[n]];
      assert LegacyOf(entries) == LegacyOf(entries[..n]) + [ToLegacy(entries[n])];
      assert OnlyEntries(appends) <==> OnlyEntries(appends[..n]) && appends[n].Entry?;
      if appends[n].Tuple? && OnlyEntries(appends[..n]) {
        assert Play(appends).canonical == entries[..n];
      }
    }
  }

  /** A commit loses nothing: normalizing recovers every appended entry in order, even where the canonical view lags. */
  lemma CommitLosesNothing(appends: seq<Append>, entries: seq<HistoryEntry>)
    requires Carries(appends, entries)
    requires forall i | 0 <= i < |entries| :: Recoverable(entries[i])
    ensures Normalize(Play(appends).legacy) == entries
  {
    LegacyNeverLags(appends, entries);
    NormalizeInvertsLegacy(entries);
  }

  /**
   * What a reader sees before a commit is complete exactly when the last append was a tuple or no tuple was
   * ever appended: an entry appended after a tuple hides the tuple.
   */
  lemma VisibleIsCompleteWhen(appends: seq<Append>, entries: seq<HistoryEntry>)
    requires Carries(appends, entries)
    requires forall i | 0 <= i < |entries| :: Recoverable(entries[i])
    ensures Visible(Play(appends)) == entries
       <==> (appends != [] && appends[|appends| - 1].Tuple?) || OnlyEntries(appends)
  {
    LegacyNeverLags(appends, entries);
    NormalizeInvertsLegacy(entries);
  }

  /** The smallest case: a tuple followed by an entry shows the entry alone. */
  lemma EntryHidesEarlierTuple(a: string, b: string)
    ensures Visible(Play([Tuple(Message(UserRole, a)), Entry(User(b))])) == [User(b)]
  {
    var appends := [Tuple(Message(UserRole, a)), Entry(User(b))];
    var first := [appends[0]];
    assert first[..0] == [];
    assert Play(first) == Appended(Play([]), appends[0]);
    assert appends[..1] == first;
    assert Play(appends).canonical == [] + [User(b)];
  }
}
