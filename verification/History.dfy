/**
 * Conversation history: the canonical entries, their legacy text form, and the reader that
 * recovers the entries from the text.
 */
module History {
  import opened Prelude
  import opened Text
  import opened Json

  datatype Role = UserRole | AssistantRole | ToolRole

  datatype HistoryEntry =
    | User(content: string)
    | Assistant(content: string)
    | ToolCall(id: string, name: string, arguments: Json)
    | ToolResult(id: string, name: string, content: string, isOk: bool)

  datatype Message = Message(role: Role, text: string)

  const TOOL_CALL_OPEN := "```tool_call"
  const TOOL_CALL_CLOSE := "```"
  const TOOL_RESULT_PREFIX := "[Tool result]:"
  const TOOL_CALL_LINE := "[tool_call "
  const TOOL_RESULT_LINE := "[tool_result "

  // ---------- writing ----------

  function CallEnvelope(id: string, name: string, arguments: Json): Json {
    JObject([Field("name", JString(name)), Field("id", JString(id)), Field("arguments", arguments)])
  }

  function FormatToolCall(id: string, name: string, arguments: Json): string {
    TOOL_CALL_OPEN + "\n" + (Print(CallEnvelope(id, name, arguments)) + "\n" + TOOL_CALL_CLOSE)
  }

  function ResultEnvelope(id: string, name: string, content: string, isOk: bool): Json {
    JObject([Field("content", JString(content)), Field("id", JString(id)),
             Field("status", JString(if isOk then "ok" else "error")), Field("tool", JString(name))])
  }

  function FormatToolResult(id: string, name: string, content: string, isOk: bool): string {
    TOOL_RESULT_PREFIX + ([' '] + Print(ResultEnvelope(id, name, content, isOk)))
  }

  function ToLegacy(e: HistoryEntry): Message {
    match e
    case User(content) => Message(UserRole, content)
    case Assistant(content) => Message(AssistantRole, content)
    case ToolCall(id, name, arguments) => Message(AssistantRole, FormatToolCall(id, name, arguments))
    case ToolResult(id, name, content, isOk) => Message(ToolRole, FormatToolResult(id, name, content, isOk))
  }

  // ---------- reading ----------

  datatype Call = Call(name: string, id: string, arguments: Json)

  function EnvelopeCall(payload: string): Option<Call> {
    match Parse(payload)
    case None => None
    case Some(v) =>
      match (AsString(Get(v, "name")), AsString(Get(v, "id")), Get(v, "arguments"))
      case (Some(name), Some(id), Some(arguments)) =>
        if name == "" || id == "" then None else Some(Call(name, id, arguments))
      case _ => None
  }

  /** Reads a fenced call that starts at `first`; the lines it looked at are gone even when it fails. */
  function ParseCanonicalToolCall(first: string, lines: seq<string>): (r: (Option<Call>, seq<string>))
    ensures |r.1| <= |lines|
  {
    if Trim(first) != TOOL_CALL_OPEN then (None, lines)
    else if |lines| < 2 then (None, [])
    else if Trim(lines[1]) != TOOL_CALL_CLOSE then (None, lines[2..])
    else (EnvelopeCall(Trim(lines[0])), lines[2..])
  }

  /** The call of a header `name id=ID` in front of arguments. */
  function HeaderCall(header: string, arguments: string): Option<Call> {
    match Find(header, " id=")
    case None => None
    case Some(split) =>
      var name, id := Trim(header[..split]), Trim(header[split + 4..]);
      if name == "" || id == "" || arguments == "" then None
      else match Parse(arguments)
        case None => None
        case Some(v) => Some(Call(name, id, v))
  }

  /** Reads the one-line dialect `[tool_call name id=ID] {...}`. */
  function ParseToolCallLine(line: string): Option<Call> {
    if !(TOOL_CALL_LINE <= line) then None
    else
      var rest := line[|TOOL_CALL_LINE|..];
      match IndexOf(rest, ']')
      case None => None
      case Some(end) => HeaderCall(rest[..end], Trim(rest[end + 1..]))
  }

  /** The value of the first `key=` token, and the tokens after it. */
  function TokenValue(parts: seq<string>, key: string): (Option<string>, seq<string>) {
    if parts == [] then (None, [])
    else if key <= parts[0] then (Some(parts[0][|key|..]), parts[1..])
    else TokenValue(parts[1..], key)
  }

  datatype ResultText = ResultText(name: string, id: string, isOk: bool, content: string)

  function ParseToolResult(text: string): Option<ResultText> {
    if TOOL_RESULT_PREFIX <= text then
      match Parse(Trim(text[|TOOL_RESULT_PREFIX|..]))
      case None => None
      case Some(v) =>
        match (AsString(Get(v, "tool")), AsString(Get(v, "content")))
        case (Some(name), Some(content)) =>
          Some(ResultText(name, AsString(Get(v, "id")).GetOr(""),
                          AsString(Get(v, "status")).GetOr("ok") == "ok", content))
        case _ => None
    else if TOOL_RESULT_LINE <= text then
      var rest := text[|TOOL_RESULT_LINE|..];
      match IndexOf(rest, ']')
      case None => None
      case Some(end) =>
        var parts := SplitWhitespace(rest[..end]);
        if parts == [] then None
        else
          var (id, afterId) := TokenValue(parts[1..], "id=");
          var (status, _) := TokenValue(afterId, "status=");
          Some(ResultText(parts[0], id.GetOr(""), status.GetOr("ok") == "ok", Trim(rest[end + 1..])))
    else None
  }

  /** The plain lines collected so far, as one assistant entry. */
  function Flush(plain: seq<string>): seq<HistoryEntry> {
    if plain == [] then [] else [Assistant(JoinLines(plain))]
  }

  /** The call that starts at the first line, in either dialect, and the lines left after it. */
  function NextCall(lines: seq<string>): (r: (Option<Call>, seq<string>))
    requires lines != []
    ensures |r.1| < |lines|
  {
    var (call, rest) := ParseCanonicalToolCall(lines[0], lines[1..]);
    (if call.Some? then call else ParseToolCallLine(lines[0]), rest)
  }

  function CallEntry(c: Call): HistoryEntry {
    ToolCall(c.id, c.name, c.arguments)
  }

  /** The entries of an assistant text, line by line, after some plain lines. */
  function NormalizeLines(lines: seq<string>, plain: seq<string>): seq<HistoryEntry>
    decreases |lines|
  {
    if lines == [] then Flush(plain)
    else
      var (call, rest) := NextCall(lines);
      if call.Some? then Flush(plain) + [CallEntry(call.value)] + NormalizeLines(rest, [])
      else NormalizeLines(rest, plain + [lines[0]])
  }

  type Pending = seq<(string, string)>

  function CallOf(e: HistoryEntry): Pending {
    if e.ToolCall? then [(e.name, e.id)] else []
  }

  /** The tool calls among entries, as (name, id). */
  function CallsOf(entries: seq<HistoryEntry>): Pending {
    if entries == [] then [] else CallOf(entries[0]) + CallsOf(entries[1..])
  }

  /** Position of the last pending call of a tool. */
  function LastPending(pending: Pending, name: string): (p: Option<nat>)
    ensures p.Some? ==> p.value < |pending| && pending[p.value].0 == name
  {
    if pending == [] then None
    else if pending[|pending| - 1].0 == name then Some(|pending| - 1)
    else LastPending(pending[..|pending| - 1], name)
  }

  /** The result entry of a tool text, and the calls still pending after it. */
  function NormalizeResult(text: string, pending: Pending): (HistoryEntry, Pending) {
    var r := ParseToolResult(text).GetOr(ResultText("legacy", "", true, text));
    var p := LastPending(pending, r.name);
    if r.id == "" && r.name != "legacy" && p.Some? then
      (ToolResult(pending[p.value].1, r.name, r.content, r.isOk), pending[..p.value] + pending[p.value + 1..])
    else (ToolResult(r.id, r.name, r.content, r.isOk), pending)
  }

  /** The entries of one message, and the calls pending after it. */
  function ReadMessage(m: Message, pending: Pending): (seq<HistoryEntry>, Pending) {
    match m.role
    case UserRole => ([User(m.text)], pending)
    case AssistantRole =>
      var entries := NormalizeLines(Lines(m.text), []);
      (entries, pending + CallsOf(entries))
    case ToolRole =>
      var (entry, left) := NormalizeResult(m.text, pending);
      ([entry], left)
  }

  function NormalizeFrom(legacy: seq<Message>, pending: Pending): seq<HistoryEntry> {
    if legacy == [] then []
    else
      var (entries, left) := ReadMessage(legacy[0], pending);
      entries + NormalizeFrom(legacy[1..], left)
  }

  /** What the legacy texts mean as entries. */
  function Normalize(legacy: seq<Message>): seq<HistoryEntry> {
    NormalizeFrom(legacy, [])
  }

  lemma {:induction false} CallsOfAppend(a: seq<HistoryEntry>, b: seq<HistoryEntry>)
    ensures CallsOf(a + b) == CallsOf(a) + CallsOf(b)
  {
    if a == [] {
      assert a + b == b;
    } else {
      assert (a + b)[1..] == a[1..] + b && (a + b)[0] == a[0];
      CallsOfAppend(a[1..], b);
      Associative(CallOf(a[0]), CallsOf(a[1..]), CallsOf(b));
    }
  }

  lemma FlushKeepsCalls(entries: seq<HistoryEntry>, plain: seq<string>)
    ensures CallsOf(entries + Flush(plain)) == CallsOf(entries)
  {
    CallsOfAppend(entries, Flush(plain));
  }

  lemma FoundCall(pending: Pending, entries: seq<HistoryEntry>, plain: seq<string>, call: Call)
    ensures pending + CallsOf(entries) + [(call.name, call.id)]
         == pending + CallsOf(entries + (Flush(plain) + [CallEntry(call)]))
  {
    FlushKeepsCalls(entries, plain);
    CallsOfAppend(entries + Flush(plain), [CallEntry(call)]);
    Associative(entries, Flush(plain), [CallEntry(call)]);
    assert [CallEntry(call)][1..] == [];
    Associative(pending, CallsOf(entries), [(call.name, call.id)]);
  }

  /** One assistant text, read line by line; `pending` gains the calls found. */
  method NormalizeAssistant(text: string, pending: Pending) returns (entries: seq<HistoryEntry>, pending': Pending)
    ensures entries == NormalizeLines(Lines(text), [])
    ensures pending' == pending + CallsOf(entries)
  {
    entries, pending' := [], pending;
    var plain: seq<string> := [];
    var lines := Lines(text);
    while lines != []
      invariant entries + NormalizeLines(lines, plain) == NormalizeLines(Lines(text), [])
      invariant pending' == pending + CallsOf(entries)
      decreases |lines|
    {
      var line := lines[0];
      var (found, rest) := ParseCanonicalToolCall(line, lines[1..]);
      var call := if found.Some? then found else ParseToolCallLine(line);
      if call.Some? {
        var added := Flush(plain) + [CallEntry(call.value)];
        FoundCall(pending, entries, plain, call.value);
        Associative(entries, added, NormalizeLines(rest, []));
        entries, pending' := entries + added, pending' + [(call.value.name, call.value.id)];
        plain := [];
      } else {
        plain := plain + [line];
      }
      lines := rest;
    }
    FlushKeepsCalls(entries, plain);
    entries := entries + Flush(plain);
  }

  /** One tool text; a result without an identity takes the last pending call of its tool. */
  method NormalizeTool(text: string, pending: Pending) returns (entry: HistoryEntry, pending': Pending)
    ensures (entry, pending') == NormalizeResult(text, pending)
  {
    var r := ParseToolResult(text).GetOr(ResultText("legacy", "", true, text));
    if r.id == "" && r.name != "legacy" {
      var position := LastPending(pending, r.name);
      if position.Some? {
        pending' := pending[..position.value] + pending[position.value + 1..];
        return ToolResult(pending[position.value].1, r.name, r.content, r.isOk), pending';
      }
    }
    entry, pending' := ToolResult(r.id, r.name, r.content, r.isOk), pending;
  }

  method NormalizeMessage(m: Message, pending: Pending) returns (entries: seq<HistoryEntry>, pending': Pending)
    ensures (entries, pending') == ReadMessage(m, pending)
  {
    match m.role {
      case UserRole =>
        entries, pending' := [User(m.text)], pending;
      case AssistantRole =>
        entries, pending' := NormalizeAssistant(m.text, pending);
      case ToolRole =>
        var entry;
        entry, pending' := NormalizeTool(m.text, pending);
        entries := [entry];
    }
  }

  /** `normalize_legacy_entries`. */
  method NormalizeLegacyEntries(legacy: seq<Message>) returns (normalized: seq<HistoryEntry>)
    ensures normalized == Normalize(legacy)
  {
    normalized := [];
    var pending: Pending := [];
    for k := 0 to |legacy|
      invariant normalized + NormalizeFrom(legacy[k..], pending) == Normalize(legacy)
    {
      assert legacy[k..][0] == legacy[k] && legacy[k..][1..] == legacy[k + 1..];
      var entries;
      entries, pending := NormalizeMessage(legacy[k], pending);
      Associative(normalized, entries, NormalizeFrom(legacy[k + 1..], pending));
      normalized := normalized + entries;
    }
    assert legacy[|legacy|..] == [];
  }

  // ---------- the two views ----------

  /** `dirty` means the canonical view must be recomputed from the legacy one. */
  datatype HistoryState = HistoryState(canonical: seq<HistoryEntry>, legacy: seq<Message>, dirty: bool)

  /** The two ways to append: a legacy tuple, or an entry. */
  datatype Append = Tuple(message: Message) | Entry(entry: HistoryEntry)

  function Appended(s: HistoryState, a: Append): HistoryState {
    match a
    case Tuple(m) => HistoryState(s.canonical, s.legacy + [m], true)
    case Entry(e) => HistoryState(s.canonical + [e], s.legacy + [ToLegacy(e)], false)
  }

  /** What a reader of the history sees. */
  function Visible(s: HistoryState): seq<HistoryEntry> {
    if s.dirty then Normalize(s.legacy) else s.canonical
  }

  class History {
    var canonical: seq<HistoryEntry>
    var legacy: seq<Message>
    var dirty: bool

    function View(): HistoryState
      reads this
    {
      HistoryState(canonical, legacy, dirty)
    }

    constructor ()
      ensures View() == HistoryState([], [], false)
    {
      canonical, legacy, dirty := [], [], false;
    }

    method PushTuple(role: Role, text: string)
      modifies this
      ensures View() == Appended(old(View()), Tuple(Message(role, text)))
    {
      legacy := legacy + [Message(role, text)];
      dirty := true;
    }

    method PushCanonical(entry: HistoryEntry)
      modifies this
      ensures View() == Appended(old(View()), Entry(entry))
    {
      legacy := legacy + [ToLegacy(entry)];
      canonical := canonical + [entry];
      dirty := false;
    }

    method Entries() returns (entries: seq<HistoryEntry>)
      ensures entries == Visible(View())
    {
      if dirty {
        entries := NormalizeLegacyEntries(legacy);
      } else {
        entries := canonical;
      }
    }

    /** Rewrites the legacy list in place, as its mutable view allows; the canonical view is out of date afterwards. */
    method RewriteLegacy(messages: seq<Message>)
      modifies this
      ensures View() == HistoryState(old(canonical), messages, true)
    {
      legacy, dirty := messages, true;
    }

    method NormalizeLegacy()
      modifies this
      ensures View() == HistoryState(Normalize(old(legacy)), old(legacy), false)
    {
      canonical := NormalizeLegacyEntries(legacy);
      dirty := false;
    }

    method Replace(entries: seq<HistoryEntry>)
      modifies this
      ensures canonical == entries && !dirty
      ensures |legacy| == |entries| && forall i | 0 <= i < |entries| :: legacy[i] == ToLegacy(entries[i])
    {
      canonical, dirty := entries, false;
      legacy := seq(|entries|, i requires 0 <= i < |entries| => ToLegacy(entries[i]));
    }
  }
}
