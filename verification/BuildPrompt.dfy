/** The prompt of a turn: the system text and as many recent turns as fit the budget. */
module BuildPrompt {
  import opened Prelude
  import opened History

  const MAX_MESSAGES: nat := 12
  const MAX_PROMPT_CHARS: nat := 32_000

  function FormatEntry(entry: HistoryEntry): string {
    match entry
    case User(content) => "<user_message>\n" + content + "\n</user_message>\n\n"
    case Assistant(content) => "<assistant_message>\n" + content + "\n</assistant_message>\n\n"
    case ToolCall(id, name, arguments) => FormatToolCall(id, name, arguments) + "\n\n"
    case ToolResult(id, name, content, isOk) => FormatToolResult(id, name, content, isOk) + "\n\n"
  }

  type Format = HistoryEntry -> string

  function FormatAll(entries: seq<HistoryEntry>, format: Format): string {
    if entries == [] then "" else format(entries[0]) + FormatAll(entries[1..], format)
  }

  lemma {:induction false} FormatAllAppend(a: seq<HistoryEntry>, b: seq<HistoryEntry>, format: Format)
    ensures FormatAll(a + b, format) == FormatAll(a, format) + FormatAll(b, format)
  {
    if a == [] {
      assert a + b == b;
    } else {
      assert (a + b)[0] == a[0] && (a + b)[1..] == a[1..] + b;
      FormatAllAppend(a[1..], b, format);
      Associative(format(a[0]), FormatAll(a[1..], format), FormatAll(b, format));
    }
  }

  lemma FormatAllSnoc(a: seq<HistoryEntry>, e: HistoryEntry, format: Format)
    ensures FormatAll(a + [e], format) == FormatAll(a, format) + format(e)
  {
    FormatAllAppend(a, [e], format);
    assert [e][1..] == [];
  }

  /** A turn starts at the first entry and at every later user entry. */
  predicate StartsTurn(history: seq<HistoryEntry>, i: nat)
    requires i < |history|
  {
    i == 0 || history[i].User?
  }

  /** The starts of all turns, in order. */
  ghost predicate AreTurnStarts(history: seq<HistoryEntry>, starts: seq<nat>, n: nat)
    requires n <= |history|
  {
    && (forall k | 0 <= k < |starts| :: starts[k] < n && StartsTurn(history, starts[k]))
    && (forall j, k | 0 <= j < k < |starts| :: starts[j] < starts[k])
    && (forall i | 0 <= i < n && StartsTurn(history, i) :: i in starts)
  }

  /** Whether the history from `start` on fits the budget. */
  predicate Fits(history: seq<HistoryEntry>, start: nat, format: Format)
    requires start <= |history|
  {
    |FormatAll(history[start..], format)| <= MAX_PROMPT_CHARS
  }

  /** The earliest of the last twelve turns from which everything fits; the very last turn when none fits. */
  ghost predicate IsBestStart(history: seq<HistoryEntry>, starts: seq<nat>, start: nat, format: Format)
    requires starts != [] && AreTurnStarts(history, starts, |history|)
  {
    var first := if |starts| <= MAX_MESSAGES then 0 else |starts| - MAX_MESSAGES;
    exists k | first <= k < |starts| ::
      && start == starts[k]
      && (Fits(history, start, format) || k == |starts| - 1)
      && forall j | first <= j < k :: !Fits(history, starts[j], format)
  }

  /** Running totals of the formatted lengths. */
  method PrefixSums(history: seq<HistoryEntry>, format: Format) returns (prefix: seq<nat>)
    ensures |prefix| == |history| + 1
    ensures forall i | 0 <= i <= |history| :: prefix[i] == |FormatAll(history[..i], format)|
  {
    prefix := [0];
    for k := 0 to |history|
      invariant |prefix| == k + 1
      invariant forall i | 0 <= i <= k :: prefix[i] == |FormatAll(history[..i], format)|
    {
      assert history[..k + 1] == history[..k] + [history[k]];
      FormatAllSnoc(history[..k], history[k], format);
      prefix := prefix + [prefix[k] + |format(history[k])|];
    }
  }

  method TurnStarts(history: seq<HistoryEntry>) returns (starts: seq<nat>)
    requires history != []
    ensures starts != [] && AreTurnStarts(history, starts, |history|)
  {
    starts := [0];
    for i := 1 to |history|
      invariant starts != [] && AreTurnStarts(history, starts, i)
    {
      if history[i].User? {
        assert forall k | 0 <= k < i && k in starts :: k in starts + [i];
        starts := starts + [i];
      }
    }
  }

  /** The suffix length as a difference of running totals. */
  lemma SuffixLength(history: seq<HistoryEntry>, start: nat, format: Format)
    requires start <= |history|
    ensures |FormatAll(history[..start], format)| + |FormatAll(history[start..], format)|
         == |FormatAll(history, format)|
  {
    assert history == history[..start] + history[start..];
    FormatAllAppend(history[..start], history[start..], format);
  }

  /** Binary search for the first start with at most the budget after it; the last start when there is none. */
  method SearchStart(prefix: seq<nat>, starts: seq<nat>, first: nat) returns (k: nat)
    requires prefix != [] && first < |starts|
    requires forall i, j | 0 <= i <= j < |prefix| :: prefix[i] <= prefix[j]
    requires forall j | 0 <= j < |starts| :: starts[j] < |prefix|
    requires forall i, j | 0 <= i < j < |starts| :: starts[i] < starts[j]
    ensures first <= k < |starts|
    ensures prefix[|prefix| - 1] - prefix[starts[k]] <= MAX_PROMPT_CHARS || k == |starts| - 1
    ensures forall j | first <= j < k :: prefix[|prefix| - 1] - prefix[starts[j]] > MAX_PROMPT_CHARS
  {
    var lo, hi := first, |starts| - 1;
    var total := prefix[|prefix| - 1];
    while lo < hi
      invariant first <= lo <= hi < |starts|
      invariant hi < |starts| - 1 ==> total - prefix[starts[hi]] <= MAX_PROMPT_CHARS
      invariant forall j | first <= j < lo :: total - prefix[starts[j]] > MAX_PROMPT_CHARS
    {
      var mid := lo + (hi - lo) / 2;
      if total - prefix[starts[mid]] <= MAX_PROMPT_CHARS {
        hi := mid;
      } else {
        lo := mid + 1;
      }
    }
    k := lo;
  }

  /** The running totals tell what fits, and never decrease. */
  lemma TotalsDecide(history: seq<HistoryEntry>, prefix: seq<nat>, format: Format)
    requires |prefix| == |history| + 1
    requires forall i | 0 <= i <= |history| :: prefix[i] == |FormatAll(history[..i], format)|
    ensures forall i, j | 0 <= i <= j < |prefix| :: prefix[i] <= prefix[j]
    ensures forall i | 0 <= i <= |history| ::
      Fits(history, i, format) <==> prefix[|history|] - prefix[i] <= MAX_PROMPT_CHARS
  {
    assert history[..|history|] == history;
    forall i | 0 <= i <= |history|
      ensures Fits(history, i, format) <==> prefix[|history|] - prefix[i] <= MAX_PROMPT_CHARS
    {
      SuffixLength(history, i, format);
    }
    forall i, j | 0 <= i <= j < |prefix|
      ensures prefix[i] <= prefix[j]
    {
      assert history[..j] == history[..i] + history[i..j];
      FormatAllAppend(history[..i], history[i..j], format);
    }
  }

  method ChooseStart(history: seq<HistoryEntry>, format: Format) returns (start: nat, ghost starts: seq<nat>)
    requires history != []
    ensures starts != [] && AreTurnStarts(history, starts, |history|)
    ensures start < |history| && IsBestStart(history, starts, start, format)
  {
    var prefix := PrefixSums(history, format);
    TotalsDecide(history, prefix, format);
    var turnStarts := TurnStarts(history);
    var first := if |turnStarts| <= MAX_MESSAGES then 0 else |turnStarts| - MAX_MESSAGES;
    var k := SearchStart(prefix, turnStarts, first);
    start, starts := turnStarts[k], turnStarts;
  }

  method FormatFrom(history: seq<HistoryEntry>, start: nat, format: Format) returns (text: string)
    requires start <= |history|
    ensures text == FormatAll(history[start..], format)
  {
    text := "";
    for i := start to |history|
      invariant text == FormatAll(history[start..i], format)
    {
      assert history[start..i + 1] == history[start..i] + [history[i]];
      FormatAllSnoc(history[start..i], history[i], format);
      text := text + format(history[i]);
    }
    assert history[start..|history|] == history[start..];
  }

  /** The prompt is the system text and the history from the best start of a turn. */
  ghost predicate IsPrompt(prompt: string, system: string, history: seq<HistoryEntry>, format: Format) {
    if history == [] then prompt == system
    else exists starts, start :: PromptFrom(prompt, system, history, starts, start, format)
  }

  ghost predicate PromptFrom(prompt: string, system: string, history: seq<HistoryEntry>, starts: seq<nat>, start: nat,
                             format: Format) {
    && starts != [] && AreTurnStarts(history, starts, |history|)
    && start < |history| && IsBestStart(history, starts, start, format)
    && prompt == system + FormatAll(history[start..], format)
  }

  /** `build_prompt`, after the system and tool sections. */
  method BuildPrompt(system: string, history: seq<HistoryEntry>) returns (prompt: string)
    ensures IsPrompt(prompt, system, history, FormatEntry)
  {
    if history == [] { return system; }
    var start;
    ghost var starts;
    start, starts := ChooseStart(history, FormatEntry);
    var text := FormatFrom(history, start, FormatEntry);
    prompt := system + text;
    assert PromptFrom(prompt, system, history, starts, start, FormatEntry);
  }

  /** The turn starts of a history are determined by it, so the chosen start is too. */
  lemma {:induction false} TurnStartsAreUnique(history: seq<HistoryEntry>, a: seq<nat>, b: seq<nat>, n: nat)
    requires n <= |history| && AreTurnStarts(history, a, n) && AreTurnStarts(history, b, n)
    ensures a == b
    decreases n
  {
    if n > 0 {
      var a', b' := DropLastStart(history, a, n), DropLastStart(history, b, n);
      TurnStartsAreUnique(history, a', b', n - 1);
    } else {
      NoStarts(history, a);
      NoStarts(history, b);
    }
  }

  lemma NoStarts(history: seq<HistoryEntry>, starts: seq<nat>)
    requires AreTurnStarts(history, starts, 0)
    ensures starts == []
  {
    var least := if |starts| > 0 then starts[0] else 0;
    assert |starts| > 0 ==> least < 0;
  }

  lemma LastStart(history: seq<HistoryEntry>, starts: seq<nat>, n: nat)
    requires 0 < n <= |history| && AreTurnStarts(history, starts, n) && StartsTurn(history, n - 1)
    ensures starts != [] && starts[|starts| - 1] == n - 1
    ensures starts == starts[..|starts| - 1] + [n - 1]
    ensures AreTurnStarts(history, starts[..|starts| - 1], n - 1)
  {
  }

  ghost function DropLastStart(history: seq<HistoryEntry>, starts: seq<nat>, n: nat): (r: seq<nat>)
    requires 0 < n <= |history| && AreTurnStarts(history, starts, n)
    ensures AreTurnStarts(history, r, n - 1)
    ensures starts == if StartsTurn(history, n - 1) then r + [n - 1] else r
  {
    if StartsTurn(history, n - 1) then
      LastStart(history, starts, n);
      starts[..|starts| - 1]
    else
      starts
  }

  lemma BestStartIsUnique(history: seq<HistoryEntry>, starts: seq<nat>, a: nat, b: nat, format: Format)
    requires starts != [] && AreTurnStarts(history, starts, |history|)
    requires IsBestStart(history, starts, a, format) && IsBestStart(history, starts, b, format)
    ensures a == b
  {
  }

  lemma PromptIsDetermined(a: string, b: string, system: string, history: seq<HistoryEntry>, format: Format)
    requires IsPrompt(a, system, history, format) && IsPrompt(b, system, history, format)
    ensures a == b
  {
    if history != [] {
      var sa, i :| PromptFrom(a, system, history, sa, i, format);
      var sb, j :| PromptFrom(b, system, history, sb, j, format);
      assert sa == sb by { TurnStartsAreUnique(history, sa, sb, |history|); }
      BestStartIsUnique(history, sa, i, j, format);
    }
  }

  // ---------- what the prompt holds ----------

  /** The text occurs in another one. */
  ghost predicate Occurs(part: string, text: string) {
    exists i :: 0 <= i <= |text| && part <= text[i..]
  }

  lemma OccursAt(front: string, part: string, back: string)
    ensures Occurs(part, front + (part + back))
  {
    assert (front + (part + back))[|front|..] == part + back;
  }

  lemma OccursWithin(part: string, text: string, front: string, back: string)
    requires Occurs(part, text)
    ensures Occurs(part, front + (text + back))
  {
    var i :| 0 <= i <= |text| && part <= text[i..];
    assert (front + (text + back))[|front| + i..] == text[i..] + back;
  }

  /** The content of a message, or the line from which a call or a result is read back. */
  function Substance(entry: HistoryEntry): string {
    match entry
    case User(content) => content
    case Assistant(content) => content
    case ToolCall(id, name, arguments) => FormatToolCall(id, name, arguments)
    case ToolResult(id, name, content, isOk) => FormatToolResult(id, name, content, isOk)
  }

  lemma EntryShowsSubstance(entry: HistoryEntry)
    ensures Occurs(Substance(entry), FormatEntry(entry))
  {
    match entry {
      case User(content) =>
        OccursAt("<user_message>\n", content, "\n</user_message>\n\n");
        assert FormatEntry(entry) == "<user_message>\n" + (content + "\n</user_message>\n\n");
      case Assistant(content) =>
        OccursAt("<assistant_message>\n", content, "\n</assistant_message>\n\n");
        assert FormatEntry(entry) == "<assistant_message>\n" + (content + "\n</assistant_message>\n\n");
      case _ =>
        OccursAt("", Substance(entry), "\n\n");
        assert "" + (Substance(entry) + "\n\n") == FormatEntry(entry);
    }
  }

  /** The prompt begins with the system text and shows every entry from the chosen start on. */
  lemma PromptShowsEntries(prompt: string, system: string, history: seq<HistoryEntry>, starts: seq<nat>, start: nat,
                           i: nat)
    requires PromptFrom(prompt, system, history, starts, start, FormatEntry) && start <= i < |history|
    ensures system <= prompt && Occurs(Substance(history[i]), prompt)
  {
    var before, after := history[start..i], history[i + 1..];
    assert history[start..] == before + ([history[i]] + after) && ([history[i]] + after)[1..] == after;
    FormatAllAppend(before, [history[i]] + after, FormatEntry);
    var text, rest := FormatEntry(history[i]), FormatAll(after, FormatEntry);
    var front := system + FormatAll(before, FormatEntry);
    EntryShowsSubstance(history[i]);
    OccursWithin(Substance(history[i]), text, front, rest);
    Associative(system, FormatAll(before, FormatEntry), text + rest);
  }

  /** The last user message and everything after it is always shown, whatever the budget. */
  lemma LastTurnIsShown(prompt: string, system: string, history: seq<HistoryEntry>, i: nat)
    requires IsPrompt(prompt, system, history, FormatEntry) && i < |history|
    requires forall j | i < j < |history| :: !history[j].User?
    requires StartsTurn(history, i)
    ensures forall j | i <= j < |history| :: Occurs(Substance(history[j]), prompt)
  {
    var starts, start :| PromptFrom(prompt, system, history, starts, start, FormatEntry);
    assert i in starts;
    forall j | i <= j < |history|
      ensures Occurs(Substance(history[j]), prompt)
    {
      PromptShowsEntries(prompt, system, history, starts, start, j);
    }
  }
}
