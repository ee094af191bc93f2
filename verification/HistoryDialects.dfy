/**
 * Texts of older sessions: results on one line, results that do not name their call, calls in the middle of a text.
 * What they are read as, and where that is not what was meant.
 */
module HistoryDialects {
  import opened Prelude
  import opened Text
  import opened Json
  import opened History
  import opened HistoryRecovery

  // ---------- results on one line ----------

  function JoinSpaces(parts: seq<string>): string {
    if parts == [] then "" else if |parts| == 1 then parts[0] else parts[0] + ([' '] + JoinSpaces(parts[1..]))
  }

  predicate AllCarried(parts: seq<string>) {
    forall i | 0 <= i < |parts| :: Carried(parts[i])
  }

  lemma {:induction false} TokenIsWhole(w: string, rest: string)
    requires (forall c | c in w :: !IsWhitespace(c)) && (rest == "" || IsWhitespace(rest[0]))
    ensures TokenLength(w + rest) == |w|
  {
    if w == "" {
      assert w + rest == rest;
    } else {
      assert (w + rest)[0] == w[0] && w[0] in w && (w + rest)[1..] == w[1..] + rest;
      TokenIsWhole(w[1..], rest);
    }
  }

  lemma {:induction false} SplitsAgain(parts: seq<string>)
    requires AllCarried(parts)
    ensures SplitWhitespace(JoinSpaces(parts)) == parts
  {
    if parts != [] {
      var w, more := parts[0], parts[1..];
      var rest := if more == [] then "" else [' '] + JoinSpaces(more);
      var s := JoinSpaces(parts);
      assert w[0] in w;
      assert s == w + rest;
      TokenIsWhole(w, rest);
      assert s[..|w|] == w && s[|w|..] == rest;
      SplitsAgain(more);
      if more != [] { SpaceIsSkipped(JoinSpaces(more)); }
      assert parts == [w] + more;
    }
  }

  lemma SpaceIsSkipped(s: string)
    ensures SplitWhitespace([' '] + s) == SplitWhitespace(s)
  {
    assert ([' '] + s)[1..] == s;
    assert TrimStart([' '] + s) == TrimStart(s);
  }

  lemma {:induction false} NoBracketInParts(parts: seq<string>)
    requires AllCarried(parts)
    ensures ']' !in JoinSpaces(parts)
  {
    if |parts| > 1 { NoBracketInParts(parts[1..]); }
  }

  function ResultLine(parts: seq<string>, body: string): string {
    TOOL_RESULT_LINE + (JoinSpaces(parts) + ([']'] + ([' '] + body)))
  }

  /** Position of the first part that starts like this. */
  ghost predicate FirstWith(parts: seq<string>, key: string, k: nat) {
    k < |parts| && key <= parts[k] && forall i | 0 <= i < k :: !(key <= parts[i])
  }

  lemma {:induction false} TokenIsFound(parts: seq<string>, key: string, k: nat)
    requires FirstWith(parts, key, k)
    ensures TokenValue(parts, key) == (Some(parts[k][|key|..]), parts[k + 1..])
  {
    if k > 0 {
      assert forall i | 0 <= i < k - 1 :: parts[1..][i] == parts[i + 1];
      assert parts[1..][k - 1] == parts[k] && parts[1..][k..] == parts[k + 1..];
      TokenIsFound(parts[1..], key, k - 1);
    }
  }

  lemma {:induction false} TokenIsMissing(parts: seq<string>, key: string)
    requires forall i | 0 <= i < |parts| :: !(key <= parts[i])
    ensures TokenValue(parts, key) == (None, [])
  {
    if parts != [] {
      assert forall i | 0 <= i < |parts[1..]| :: parts[1..][i] == parts[i + 1];
      TokenIsMissing(parts[1..], key);
    }
  }

  /** The reading of a result line, once it is split. */
  function LineResult(parts: seq<string>, body: string): ResultText
    requires parts != []
  {
    var (id, afterId) := TokenValue(parts[1..], "id=");
    var (status, _) := TokenValue(afterId, "status=");
    ResultText(parts[0], id.GetOr(""), status.GetOr("ok") == "ok", body)
  }

  lemma ResultLineSplits(parts: seq<string>, body: string)
    requires parts != [] && AllCarried(parts) && Trimmed(body)
    ensures ParseToolResult(ResultLine(parts, body)) == Some(LineResult(parts, body))
  {
    hide JoinSpaces, Trim, SplitWhitespace, IndexOf, ParseToolResult, LineResult, Carried, Trimmed;
    NoBracketInParts(parts);
    LineSplits(ResultLine(parts, body), TOOL_RESULT_LINE, JoinSpaces(parts), [' '] + body);
    SpacedTrims(body);
    SplitsAgain(parts);
    assert ResultLine(parts, body)[5] == '_';
    assert TOOL_RESULT_PREFIX[5] == ' ';
    LineIsRead(ResultLine(parts, body), JoinSpaces(parts), parts, body);
  }

  lemma LineIsRead(text: string, header: string, parts: seq<string>, body: string)
    requires !(TOOL_RESULT_PREFIX <= text) && TOOL_RESULT_LINE <= text && parts != []
    requires var rest := text[|TOOL_RESULT_LINE|..];
      && IndexOf(rest, ']') == Some(|header|) && rest[..|header|] == header && Trim(rest[|header| + 1..]) == body
    requires SplitWhitespace(header) == parts
    ensures ParseToolResult(text) == Some(LineResult(parts, body))
  {
    hide Trim, SplitWhitespace, IndexOf, TokenValue, Parse, AsString, Get;
  }

  /** What the words after the identity say: a failure exactly if the first `status=` is something other than `ok`. */
  ghost predicate Says(later: seq<string>, isOk: bool) {
    && (forall j: nat | FirstWith(later, "status=", j) :: isOk <==> later[j][7..] == "ok")
    && (isOk || exists j: nat :: FirstWith(later, "status=", j))
  }

  /** A result line that names its call: the tool is the first word, the call is what follows the first `id=`. */
  lemma NamedResultLineReads(parts: seq<string>, body: string, k: nat) returns (isOk: bool)
    requires parts != [] && AllCarried(parts) && Trimmed(body) && FirstWith(parts[1..], "id=", k)
    ensures ParseToolResult(ResultLine(parts, body)) == Some(ResultText(parts[0], parts[k + 1][3..], isOk, body))
    ensures Says(parts[k + 2..], isOk)
  {
    hide ResultLine, ParseToolResult, Carried, Trimmed;
    ResultLineSplits(parts, body);
    TokenIsFound(parts[1..], "id=", k);
    assert parts[1..][k + 1..] == parts[k + 2..];
    isOk := StatusIsRead(parts[k + 2..]);
  }

  lemma StatusIsRead(later: seq<string>) returns (isOk: bool)
    ensures isOk <==> TokenValue(later, "status=").0.GetOr("ok") == "ok"
    ensures Says(later, isOk)
  {
    isOk := TokenValue(later, "status=").0.GetOr("ok") == "ok";
    forall j: nat | FirstWith(later, "status=", j)
      ensures TokenValue(later, "status=").0 == Some(later[j][7..])
    {
      TokenIsFound(later, "status=", j);
    }
    if !isOk { var j := TokenIsSomewhere(later, "status="); }
  }

  lemma {:induction false} TokenIsSomewhere(parts: seq<string>, key: string) returns (k: nat)
    requires TokenValue(parts, key).0.Some?
    ensures FirstWith(parts, key, k)
  {
    if key <= parts[0] {
      k := 0;
    } else {
      k := TokenIsSomewhere(parts[1..], key);
      k := k + 1;
      assert forall i | 0 < i < k :: parts[i] == parts[1..][i - 1];
    }
  }

  /** A result line that does not name its call counts as a success, whatever status it states. */
  lemma NamelessResultLineReads(parts: seq<string>, body: string)
    requires parts != [] && AllCarried(parts) && Trimmed(body)
    requires forall i | 0 < i < |parts| :: !("id=" <= parts[i])
    ensures ParseToolResult(ResultLine(parts, body)) == Some(ResultText(parts[0], "", true, body))
  {
    ResultLineSplits(parts, body);
    assert forall i | 0 <= i < |parts[1..]| :: parts[1..][i] == parts[i + 1];
    TokenIsMissing(parts[1..], "id=");
  }

  /** The smallest case: a stated failure is read as a success. */
  lemma FailureIsReadAsSuccess()
    ensures ParseToolResult(ResultLine(["f", "status=error"], "x")) == Some(ResultText("f", "", true, "x"))
  {
    var parts := ["f", "status=error"];
    assert Carried("f") && Carried("status=error");
    assert "status=error"[0] == 's' && "id="[0] == 'i';
    NamelessResultLineReads(parts, "x");
  }

  /** A tool text in neither form is kept as it is, without a call. */
  lemma OtherToolTextIsKept(text: string, pending: Pending)
    requires !(TOOL_RESULT_PREFIX <= text) && !(TOOL_RESULT_LINE <= text)
    ensures ReadMessage(Message(ToolRole, text), pending) == ([ToolResult("", "legacy", text, true)], pending)
  {
  }

  // ---------- results that do not name their call ----------

  /** No call of this tool is pending. */
  predicate NonePending(pending: Pending, name: string) {
    forall i | 0 <= i < |pending| :: pending[i].0 != name
  }

  lemma {:induction false} LastIsFound(before: Pending, name: string, id: string, after: Pending)
    requires NonePending(after, name)
    ensures LastPending(before + [(name, id)] + after, name) == Some(|before|)
  {
    var all := before + [(name, id)] + after;
    if after == [] {
      assert all[|all| - 1] == (name, id);
    } else {
      var n := |after| - 1;
      assert all[|all| - 1] == after[n];
      assert all[..|all| - 1] == before + [(name, id)] + after[..n];
      LastIsFound(before, name, id, after[..n]);
    }
  }

  lemma {:induction false} NoneIsFound(pending: Pending, name: string)
    requires NonePending(pending, name)
    ensures LastPending(pending, name).None?
  {
    if pending != [] { NoneIsFound(pending[..|pending| - 1], name); }
  }

  /** A result without a call takes the last pending call of its tool, and that call alone. */
  lemma ResultTakesLastCall(text: string, name: string, content: string, isOk: bool,
                            before: Pending, id: string, after: Pending)
    requires ParseToolResult(text) == Some(ResultText(name, "", isOk, content)) && name != "legacy"
    requires NonePending(after, name)
    ensures NormalizeResult(text, before + [(name, id)] + after)
         == (ToolResult(id, name, content, isOk), before + after)
  {
    var pending := before + [(name, id)] + after;
    LastIsFound(before, name, id, after);
    assert pending[|before|] == (name, id);
    assert pending[..|before|] == before && pending[|before| + 1..] == after;
  }

  /** A result that names its call, or whose tool has no pending call, takes none. */
  lemma ResultTakesNoCall(text: string, r: ResultText, pending: Pending)
    requires ParseToolResult(text) == Some(r) && (r.id != "" || NonePending(pending, r.name))
    ensures NormalizeResult(text, pending) == (ToolResult(r.id, r.name, r.content, r.isOk), pending)
  {
    if r.id == "" { NoneIsFound(pending, r.name); }
  }

  function UserMessages(texts: seq<string>): seq<Message> {
    seq(|texts|, i requires 0 <= i < |texts| => Message(UserRole, texts[i]))
  }

  function UserEntries(texts: seq<string>): seq<HistoryEntry> {
    seq(|texts|, i requires 0 <= i < |texts| => User(texts[i]))
  }

  lemma {:induction false} UsersAreRead(texts: seq<string>, more: seq<Message>, pending: Pending)
    ensures NormalizeFrom(UserMessages(texts) + more, pending) == UserEntries(texts) + NormalizeFrom(more, pending)
  {
    var all := UserMessages(texts) + more;
    if texts == [] {
      assert all == more;
    } else {
      assert all[0] == Message(UserRole, texts[0]) && all[1..] == UserMessages(texts[1..]) + more;
      UsersAreRead(texts[1..], more, pending);
      assert UserEntries(texts) == [User(texts[0])] + UserEntries(texts[1..]);
      Associative([User(texts[0])], UserEntries(texts[1..]), NormalizeFrom(more, pending));
    }
  }

  /** A call, whatever the user says in between, and its result without an identity: the result gets the call's. */
  lemma NamelessResultIsPaired(id: string, name: string, arguments: Json, texts: seq<string>, body: string)
    requires WellFormed(arguments) && Within(arguments, MAX_DEPTH - 1)
    requires id != "" && Carried(name) && name != "legacy" && Trimmed(body)
    ensures var call, result := ToLegacy(ToolCall(id, name, arguments)), Message(ToolRole, ResultLine([name], body));
      Normalize([call] + (UserMessages(texts) + [result]))
        == [ToolCall(id, name, arguments)] + (UserEntries(texts) + [ToolResult(id, name, body, true)])
  {
    hide ParseToolResult, ResultLine, Trimmed, LastPending, FormatToolCall, Within, NormalizeLines, Lines;
    var call, result := ToLegacy(ToolCall(id, name, arguments)), Message(ToolRole, ResultLine([name], body));
    var all := [call] + (UserMessages(texts) + [result]);
    CallIsRead(id, name, arguments);
    assert all[0] == call && all[1..] == UserMessages(texts) + [result];
    UsersAreRead(texts, [result], [(name, id)]);
    NamelessResultLineReads([name], body);
    ResultTakesLastCall(result.text, name, body, true, [], id, []);
    assert [] + [(name, id)] + [] == [(name, id)];
    OneMessage(result, [(name, id)]);
  }

  lemma CallIsRead(id: string, name: string, arguments: Json)
    requires WellFormed(arguments) && Within(arguments, MAX_DEPTH - 1) && id != "" && name != ""
    ensures ReadMessage(ToLegacy(ToolCall(id, name, arguments)), []) == ([ToolCall(id, name, arguments)], [(name, id)])
  {
    hide NormalizeLines, Lines, FormatToolCall, Within, WellFormed;
    ToolCallComesBack(id, name, arguments);
    assert [ToolCall(id, name, arguments)][1..] == [];
    var none: Pending := [];
    assert none + CallsOf([ToolCall(id, name, arguments)]) == [(name, id)];
  }

  lemma OneMessage(m: Message, pending: Pending)
    ensures NormalizeFrom([m], pending) == ReadMessage(m, pending).0
  {
    assert [m][1..] == [];
    assert ReadMessage(m, pending).0 + [] == ReadMessage(m, pending).0;
  }

  /** Two pending calls of one tool: results without identities are taken for each other's. */
  lemma NamelessResultsAreSwapped(name: string, first: string, second: string, a: string, b: string)
    requires Carried(name) && name != "legacy" && Trimmed(a) && Trimmed(b)
    ensures var messages := [Message(ToolRole, ResultLine([name], a)), Message(ToolRole, ResultLine([name], b))];
      NormalizeFrom(messages, [(name, first), (name, second)])
        == [ToolResult(second, name, a, true), ToolResult(first, name, b, true)]
  {
    hide ParseToolResult, ResultLine, Trimmed, Carried, LastPending;
    var m, n := Message(ToolRole, ResultLine([name], a)), Message(ToolRole, ResultLine([name], b));
    NamelessResultLineReads([name], a);
    NamelessResultLineReads([name], b);
    ResultTakesLastCall(m.text, name, a, true, [(name, first)], second, []);
    assert [(name, first)] + [(name, second)] + [] == [(name, first), (name, second)];
    assert [(name, first)] + [] == [(name, first)];
    ResultTakesLastCall(n.text, name, b, true, [], first, []);
    assert [] + [(name, first)] + [] == [(name, first)];
    assert [m, n][1..] == [n];
    OneMessage(n, [(name, first)]);
  }

  // ---------- calls in the middle of a text ----------

  /** Lines that start no call and no fence. */
  predicate PlainLines(lines: seq<string>) {
    forall i | 0 <= i < |lines| :: Trim(lines[i]) != TOOL_CALL_OPEN && ParseToolCallLine(lines[i]).None?
  }

  lemma {:induction false} PlainLinesFirst(lines: seq<string>, rest: seq<string>, plain: seq<string>)
    requires PlainLines(lines)
    ensures NormalizeLines(lines + rest, plain) == NormalizeLines(rest, plain + lines)
    decreases |lines|
  {
    if lines == [] {
      assert lines + rest == rest && plain + lines == plain;
    } else {
      var all := lines + rest;
      assert all[0] == lines[0] && all[1..] == lines[1..] + rest;
      assert NextCall(all) == (None, all[1..]);
      assert PlainLines(lines[1..]) by {
        assert forall i | 0 <= i < |lines[1..]| :: lines[1..][i] == lines[i + 1];
      }
      PlainLinesFirst(lines[1..], rest, plain + [lines[0]]);
      assert plain + [lines[0]] + lines[1..] == plain + lines;
    }
  }

  /** Text, a call in either form, and more text: the text before the call, the call, and what follows it. */
  lemma CallAmongLines(before: seq<string>, lines: seq<string>, call: Call, after: seq<string>)
    requires PlainLines(before) && lines != [] && NextCall(lines) == (Some(call), after)
    ensures NormalizeLines(before + lines, []) == Flush(before) + [CallEntry(call)] + NormalizeLines(after, [])
  {
    PlainLinesFirst(before, lines, []);
    assert [] + before == before;
  }

  lemma FencedCallAmongLines(before: seq<string>, id: string, name: string, arguments: Json, after: seq<string>)
    requires PlainLines(before) && Recoverable(ToolCall(id, name, arguments))
    ensures NormalizeLines(before + (Lines(FormatToolCall(id, name, arguments)) + after), [])
         == Flush(before) + [ToolCall(id, name, arguments)] + NormalizeLines(after, [])
  {
    hide Print, CallEnvelope, Trim, NormalizeLines, EnvelopeCall, FormatToolCall, Lines;
    var payload := Print(CallEnvelope(id, name, arguments));
    var lines := [TOOL_CALL_OPEN, payload, TOOL_CALL_CLOSE] + after;
    CallLines(id, name, arguments);
    EnvelopeReads(id, name, arguments);
    TrimFixed(TOOL_CALL_OPEN);
    TrimFixed(TOOL_CALL_CLOSE);
    assert lines[1..] == [payload, TOOL_CALL_CLOSE] + after && lines[1..][2..] == after;
    assert NextCall(lines) == (Some(Call(name, id, arguments)), after);
    CallAmongLines(before, lines, Call(name, id, arguments), after);
  }

  lemma CallLineAmongLines(before: seq<string>, name: string, id: string, arguments: string, v: Json,
                           after: seq<string>)
    requires PlainLines(before) && Carried(name) && Carried(id) && Trimmed(arguments) && Parse(arguments) == Some(v)
    ensures NormalizeLines(before + ([CallLine(name, id, arguments)] + after), [])
         == Flush(before) + [ToolCall(id, name, v)] + NormalizeLines(after, [])
  {
    var line := CallLine(name, id, arguments);
    var lines := [line] + after;
    CallLineReads(name, id, arguments);
    assert line[0] == '[' && line[|line| - 1] == arguments[|arguments| - 1];
    TrimFixed(line);
    assert TOOL_CALL_OPEN[0] == '`';
    assert lines[0] == line && lines[1..] == after;
    assert NextCall(lines) == (Some(Call(name, id, v)), after);
    CallAmongLines(before, lines, Call(name, id, v), after);
  }
}
