/** Workspace globs and the regular expressions they are compiled to. */
module Glob {
  import opened Prelude

  // ---------- what a glob means ----------

  /** `*` and `?` never cross a slash, `**` crosses anything, every other character stands for itself. */
  predicate GlobMatches(pattern: string, text: string)
    decreases |pattern|
  {
    if pattern == "" then text == ""
    else if IsDoubleStar(pattern) then
      exists k :: 0 <= k <= |text| && GlobMatches(pattern[2..], text[k..])
    else if pattern[0] == '*' then
      exists k :: 0 <= k <= |text| && '/' !in text[..k] && GlobMatches(pattern[1..], text[k..])
    else if pattern[0] == '?' then
      text != "" && text[0] != '/' && GlobMatches(pattern[1..], text[1..])
    else
      text != "" && text[0] == pattern[0] && GlobMatches(pattern[1..], text[1..])
  }

  predicate IsDoubleStar(pattern: string) {
    |pattern| > 1 && pattern[0] == '*' && pattern[1] == '*'
  }

  // ---------- the compiler ----------

  predicate IsMeta(c: char) {
    c in {'.', '+', '(', ')', '[', ']', '{', '}', '^', '$', '|', '\\'}
  }

  /** The regular expression for one element of the pattern. */
  function Emitted(pattern: string): string
    requires pattern != ""
  {
    if IsDoubleStar(pattern) then ".*"
    else if pattern[0] == '*' then "[^/]*"
    else if pattern[0] == '?' then "[^/]"
    else if IsMeta(pattern[0]) then ['\\', pattern[0]]
    else [pattern[0]]
  }

  function Consumed(pattern: string): (n: nat)
    requires pattern != ""
    ensures 1 <= n <= |pattern|
  {
    if IsDoubleStar(pattern) then 2 else 1
  }

  function RegexBody(pattern: string): string
    decreases |pattern|
  {
    if pattern == "" then "$" else Emitted(pattern) + RegexBody(pattern[Consumed(pattern)..])
  }

  function RegexOf(pattern: string): string {
    ['^'] + RegexBody(pattern)
  }

  /** `glob_to_regex`. */
  method GlobToRegex(pattern: string) returns (regex: string)
    ensures regex == RegexOf(pattern)
  {
    regex := "^";
    var i := 0;
    while i < |pattern|
      invariant 0 <= i <= |pattern|
      invariant regex + RegexBody(pattern[i..]) == RegexOf(pattern)
    {
      ghost var rest := pattern[i..];
      var c := pattern[i];
      var piece: string;
      if c == '*' && i + 1 < |pattern| && pattern[i + 1] == '*' {
        piece, i := ".*", i + 2;
      } else if c == '*' {
        piece, i := "[^/]*", i + 1;
      } else if c == '?' {
        piece, i := "[^/]", i + 1;
      } else if IsMeta(c) {
        piece, i := ['\\', c], i + 1;
      } else {
        piece, i := [c], i + 1;
      }
      assert piece == Emitted(rest) && rest[Consumed(rest)..] == pattern[i..];
      Associative(regex, piece, RegexBody(pattern[i..]));
      regex := regex + piece;
    }
    assert pattern[|pattern|..] == "";
    regex := regex + "$";
  }

  // ---------- the regular expressions ----------

  /** The elements of the fragment: `.*`, `[^/]*`, `[^/]`, and a character. */
  datatype Item = AnyRun | SegmentRun | OneInSegment | Literal(c: char)

  predicate IsQuantifier(text: string) {
    text != "" && text[0] in {'*', '+', '?', '{'}
  }

  /** Reads the elements up to the closing anchor. Anything outside the fragment is not read. */
  function ReadItems(text: string): Option<seq<Item>>
    decreases |text|
  {
    if text == "$" then Some([])
    else if text == "" then None
    else
      match ReadItem(text)
      case None => None
      case Some((item, n)) =>
        match ReadItems(text[n..])
        case None => None
        case Some(items) => Some([item] + items)
  }

  /** One element and its length. */
  function ReadItem(text: string): (r: Option<(Item, nat)>)
    requires text != ""
    ensures r.Some? ==> 0 < r.value.1 <= |text|
  {
    if ".*" <= text then (if IsQuantifier(text[2..]) then None else Some((AnyRun, 2)))
    else if "[^/]*" <= text then (if IsQuantifier(text[5..]) then None else Some((SegmentRun, 5)))
    else if "[^/]" <= text then (if IsQuantifier(text[4..]) then None else Some((OneInSegment, 4)))
    else if text[0] == '\\' then
      if |text| > 1 && IsMeta(text[1]) && !IsQuantifier(text[2..]) then Some((Literal(text[1]), 2)) else None
    else if IsMeta(text[0]) || text[0] in {'*', '?'} || IsQuantifier(text[1..]) then None
    else Some((Literal(text[0]), 1))
  }

  /** An anchored expression of the fragment. */
  function ReadRegex(regex: string): Option<seq<Item>> {
    if regex != "" && regex[0] == '^' then ReadItems(regex[1..]) else None
  }

  /** A whole text matches: the dot is any character but a newline. */
  predicate Matches(items: seq<Item>, text: string)
    decreases |items|
  {
    if items == [] then text == ""
    else match items[0]
      case AnyRun => exists k :: 0 <= k <= |text| && '\n' !in text[..k] && Matches(items[1..], text[k..])
      case SegmentRun => exists k :: 0 <= k <= |text| && '/' !in text[..k] && Matches(items[1..], text[k..])
      case OneInSegment => text != "" && text[0] != '/' && Matches(items[1..], text[1..])
      case Literal(c) => text != "" && text[0] == c && Matches(items[1..], text[1..])
  }

  // ---------- reading the compiled expression ----------

  /** The elements of a pattern. */
  function ItemsOf(pattern: string): seq<Item>
    decreases |pattern|
  {
    if pattern == "" then []
    else
      var item := if IsDoubleStar(pattern) then AnyRun
                  else if pattern[0] == '*' then SegmentRun
                  else if pattern[0] == '?' then OneInSegment
                  else Literal(pattern[0]);
      [item] + ItemsOf(pattern[Consumed(pattern)..])
  }

  /** No compiled element begins like a quantifier, so none can be taken for the end of the element before it. */
  lemma BodyStarts(pattern: string)
    ensures RegexBody(pattern) != "" && !IsQuantifier(RegexBody(pattern))
  {
  }

  lemma ReadsEmitted(pattern: string)
    requires pattern != ""
    ensures ReadItem(RegexBody(pattern)) == Some((ItemsOf(pattern)[0], |Emitted(pattern)|))
    ensures RegexBody(pattern)[|Emitted(pattern)|..] == RegexBody(pattern[Consumed(pattern)..])
    ensures RegexBody(pattern) != "$"
  {
    var e, rest := Emitted(pattern), RegexBody(pattern[Consumed(pattern)..]);
    BodyStarts(pattern[Consumed(pattern)..]);
    var text := RegexBody(pattern);
    assert text == e + rest && text[|e|..] == rest && e <= text;
    if IsDoubleStar(pattern) {
      assert text[..2] == ".*";
    } else if pattern[0] == '*' {
      assert text[0] == '[';
    } else if pattern[0] == '?' {
      assert text[0] == '[' && text[4] == rest[0];
      assert "[^/]*"[4] == '*';
    } else if IsMeta(pattern[0]) {
      assert text[0] == '\\' && text[1] == pattern[0] && "[^/]"[0] == '[' && ".*"[0] == '.';
    } else {
      assert text[0] == pattern[0] && "[^/]"[0] == '[' && ".*"[0] == '.';
    }
  }

  /** The compiled expression reads back as the elements of the pattern. */
  lemma {:induction false} CompiledReadsBack(pattern: string)
    ensures ReadItems(RegexBody(pattern)) == Some(ItemsOf(pattern))
    decreases |pattern|
  {
    if pattern != "" {
      ReadsEmitted(pattern);
      CompiledReadsBack(pattern[Consumed(pattern)..]);
    }
  }

  // ---------- the same meaning ----------

  /** The elements without `**` mean what the pattern means; `**` does too for texts without a newline. */
  lemma {:induction false} ItemsMeanPattern(pattern: string, text: string)
    requires '\n' !in text || AnyRun !in ItemsOf(pattern)
    ensures Matches(ItemsOf(pattern), text) <==> GlobMatches(pattern, text)
    decreases |pattern|
  {
    if pattern != "" {
      var rest := pattern[Consumed(pattern)..];
      assert ItemsOf(pattern)[1..] == ItemsOf(rest);
      forall k | 0 <= k <= |text|
        ensures Matches(ItemsOf(rest), text[k..]) <==> GlobMatches(rest, text[k..])
      {
        ItemsMeanPattern(rest, text[k..]);
      }
    }
  }

  /** `glob_matches`: the compiled expression, read back and matched. */
  predicate CompiledMatches(pattern: string, text: string) {
    var items := ReadRegex(RegexOf(pattern));
    items.Some? && Matches(items.value, text)
  }

  lemma CompiledIsItems(pattern: string, text: string)
    ensures CompiledMatches(pattern, text) <==> Matches(ItemsOf(pattern), text)
  {
    CompiledReadsBack(pattern);
    assert RegexOf(pattern)[1..] == RegexBody(pattern);
  }

  /** Compiling preserves the meaning for every text without a newline. */
  lemma CompiledMeansGlob(pattern: string, text: string)
    requires '\n' !in text
    ensures CompiledMatches(pattern, text) <==> GlobMatches(pattern, text)
  {
    CompiledIsItems(pattern, text);
    ItemsMeanPattern(pattern, text);
  }

  // ---------- newlines ----------

  /** How often a newline is followed by a slash. */
  function Breaks(text: string): nat {
    if |text| < 2 then 0 else (if text[0] == '\n' && text[1] == '/' then 1 else 0) + Breaks(text[1..])
  }

  lemma {:induction false} BreaksOfSum(text: string, k: nat)
    requires k <= |text|
    ensures Breaks(text) <= Breaks(text[..k]) + Breaks(text[k..]) + 1
    ensures Breaks(text) >= Breaks(text[k..])
  {
    if k > 0 && |text| >= 2 {
      assert text[..k][1..] == text[1..][..k - 1] && text[1..][k - 1..] == text[k..];
      BreaksOfSum(text[1..], k - 1);
      if k == 1 { assert text[1..][0..] == text[1..]; }
    } else {
      assert k == 0 ==> text[0..] == text;
    }
  }

  lemma {:induction false} NoBreaks(text: string)
    requires '/' !in text || '\n' !in text
    ensures Breaks(text) == 0
  {
    if |text| >= 2 { NoBreaks(text[1..]); }
  }

  /** Without a run that crosses newlines, a match has fewer breaks than elements. */
  lemma {:induction false} FewBreaks(items: seq<Item>, text: string)
    requires Matches(items, text)
    ensures Breaks(text) <= |items|
    decreases |items|
  {
    if items != [] {
      var k: nat := 1;
      if items[0].AnyRun? {
        k :| 0 <= k <= |text| && '\n' !in text[..k] && Matches(items[1..], text[k..]);
        NoBreaks(text[..k]);
      } else if items[0].SegmentRun? {
        k :| 0 <= k <= |text| && '/' !in text[..k] && Matches(items[1..], text[k..]);
        NoBreaks(text[..k]);
      }
      FewBreaks(items[1..], text[k..]);
      BreaksOfSum(text, k);
    }
  }

  function ManyBreaks(n: nat): string {
    if n == 0 then "" else ['\n', '/'] + ManyBreaks(n - 1)
  }

  lemma {:induction false} CountBreaks(n: nat, rest: string)
    ensures Breaks(ManyBreaks(n) + rest) >= n
  {
    if n > 0 {
      var text, more := ManyBreaks(n) + rest, ManyBreaks(n - 1) + rest;
      assert text == ['\n', '/'] + more && text[1..] == ['/'] + more && text[1..][1..] == more;
      CountBreaks(n - 1, rest);
    }
  }

  /** A pattern with `**` matches a text with any number of breaks. */
  lemma {:induction false} CrossesBreaks(pattern: string, n: nat) returns (text: string)
    requires AnyRun in ItemsOf(pattern)
    ensures GlobMatches(pattern, text) && Breaks(text) >= n
    decreases |pattern|
  {
    var rest := pattern[Consumed(pattern)..];
    if IsDoubleStar(pattern) {
      var more := SomeMatch(rest);
      text := ManyBreaks(n) + more;
      CountBreaks(n, more);
      assert text[|ManyBreaks(n)|..] == more;
    } else {
      assert ItemsOf(pattern)[0] != AnyRun;
      var more := CrossesBreaks(rest, n);
      text := FirstMatch(pattern) + more;
      assert text[|FirstMatch(pattern)|..] == more;
      BreaksOfSum(text, |FirstMatch(pattern)|);
      assert pattern[0] == '*' ==> '/' !in text[..0];
    }
  }

  /** The shortest text that the first element matches. */
  function FirstMatch(pattern: string): string
    requires pattern != ""
  {
    if pattern[0] == '*' then "" else if pattern[0] == '?' then "x" else [pattern[0]]
  }

  lemma {:induction false} SomeMatch(pattern: string) returns (text: string)
    ensures GlobMatches(pattern, text)
    decreases |pattern|
  {
    if pattern == "" {
      text := "";
    } else {
      var more := SomeMatch(pattern[Consumed(pattern)..]);
      text := FirstMatch(pattern) + more;
      assert text[|FirstMatch(pattern)|..] == more;
      assert pattern[0] == '*' ==> '/' !in text[..0];
    }
  }

  /**
   * For texts with newlines the meaning is preserved exactly by the patterns without `**`: the compiled `.*` does not
   * cross a newline.
   */
  lemma MeaningIsPreservedExactlyWithoutDoubleStar(pattern: string)
    ensures (forall text :: CompiledMatches(pattern, text) <==> GlobMatches(pattern, text))
            <==> AnyRun !in ItemsOf(pattern)
  {
    if AnyRun in ItemsOf(pattern) {
      var text := CrossesBreaks(pattern, |ItemsOf(pattern)| + 1);
      CompiledIsItems(pattern, text);
      if Matches(ItemsOf(pattern), text) { FewBreaks(ItemsOf(pattern), text); }
      assert GlobMatches(pattern, text) && !CompiledMatches(pattern, text);
    } else {
      forall text
        ensures CompiledMatches(pattern, text) <==> GlobMatches(pattern, text)
      {
        CompiledIsItems(pattern, text);
        ItemsMeanPattern(pattern, text);
      }
    }
  }

  /** The pattern `**` alone means to match every text; compiled, it matches the texts without a newline. */
  lemma DoubleStarAlone(text: string)
    ensures GlobMatches("**", text)
    ensures CompiledMatches("**", text) <==> '\n' !in text
  {
    var pattern := "**";
    var n := |text|;
    assert pattern[2..] == "" && text[n..] == "" && GlobMatches(pattern[2..], text[n..]);
    CompiledIsItems(pattern, text);
    assert ItemsOf(pattern) == [AnyRun] + ItemsOf(pattern[2..]) && ItemsOf(pattern)[1..] == [];
    forall k | 0 <= k <= n && Matches([], text[k..])
      ensures text[..k] == text
    {
    }
    assert text[..n] == text && Matches([], text[n..]);
  }
}
