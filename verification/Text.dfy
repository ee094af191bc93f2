/** The string operations of Rust's standard library that the model relies on. */
module Text {
  import opened Prelude

  /** Unicode White_Space. */
  predicate IsWhitespace(c: char) {
    var n := c as int;
    || 0x09 <= n <= 0x0D || n == 0x20 || n == 0x85 || n == 0xA0 || n == 0x1680
    || 0x2000 <= n <= 0x200A || n == 0x2028 || n == 0x2029 || n == 0x202F || n == 0x205F || n == 0x3000
  }

  /** Number of bytes of a character in UTF-8. */
  function ByteLen(c: char): nat {
    var n := c as int;
    if n < 0x80 then 1 else if n < 0x800 then 2 else if n < 0x1_0000 then 3 else 4
  }

  /** `str::len`: bytes, not characters. */
  function Bytes(s: string): nat {
    if s == "" then 0 else ByteLen(s[0]) + Bytes(s[1..])
  }

  function TrimStart(s: string): string {
    if s != "" && IsWhitespace(s[0]) then TrimStart(s[1..]) else s
  }

  function TrimEnd(s: string): string {
    if s != "" && IsWhitespace(s[|s| - 1]) then TrimEnd(s[..|s| - 1]) else s
  }

  function Trim(s: string): string {
    TrimEnd(TrimStart(s))
  }

  /** Index of the first occurrence of a character. */
  function IndexOf(s: string, c: char): (i: Option<nat>)
    ensures i.Some? ==> i.value < |s| && s[i.value] == c && c !in s[..i.value]
    ensures i.None? ==> c !in s
  {
    if s == "" then None
    else if s[0] == c then Some(0)
    else match IndexOf(s[1..], c)
      case None => None
      case Some(i) =>
        assert s[..i + 1] == [s[0]] + s[1..][..i];
        Some(i + 1)
  }

  lemma {:induction false} IndexOfFirst(a: string, c: char, b: string)
    requires c !in a
    ensures IndexOf(a + ([c] + b), c) == Some(|a|)
  {
    if a != "" {
      assert (a + ([c] + b))[1..] == a[1..] + ([c] + b);
      IndexOfFirst(a[1..], c, b);
    }
  }

  lemma AbsentLater(s: string, pattern: string, n: nat)
    requires s != "" && n <= |s| && !(pattern <= s)
    requires forall k | 0 <= k < n :: !(pattern <= s[1..][k..])
    ensures forall k | 0 <= k < n + 1 && k <= |s| :: !(pattern <= s[k..])
  {
    forall k | 0 <= k < n + 1 && k <= |s|
      ensures !(pattern <= s[k..])
    {
      assert if k == 0 then s[k..] == s else s[k..] == s[1..][k - 1..];
    }
  }

  /** `str::find`: start of the first occurrence of a pattern. */
  function Find(s: string, pattern: string): (i: Option<nat>)
    ensures i.Some? ==> i.value + |pattern| <= |s| && s[i.value..i.value + |pattern|] == pattern
    ensures i.Some? ==> forall k | 0 <= k < i.value :: !(pattern <= s[k..])
    ensures i.None? ==> forall k | 0 <= k <= |s| :: !(pattern <= s[k..])
  {
    if pattern <= s then
      assert s[0..] == s;
      Some(0)
    else if s == "" then
      assert s[0..] == s;
      None
    else
      var tail := Find(s[1..], pattern);
      AbsentLater(s, pattern, if tail.Some? then tail.value else |s|);
      match tail
      case None => None
      case Some(i) => Some(i + 1)
  }

  /** The length of the first run of non-space characters. */
  function TokenLength(s: string): (n: nat)
    ensures n <= |s|
    ensures s != "" && !IsWhitespace(s[0]) ==> n > 0
  {
    if s == "" || IsWhitespace(s[0]) then 0 else 1 + TokenLength(s[1..])
  }

  lemma TrimStartShrinks(s: string)
    ensures |TrimStart(s)| <= |s|
    ensures TrimStart(s) != "" ==> !IsWhitespace(TrimStart(s)[0])
  {
  }

  /** `str::split_whitespace`. */
  function SplitWhitespace(s: string): seq<string>
    decreases |s|
  {
    TrimStartShrinks(s);
    var t := TrimStart(s);
    if t == "" then []
    else
      var n := TokenLength(t);
      [t[..n]] + SplitWhitespace(t[n..])
  }

  /** A line without its carriage return, if it has one. */
  function DropCr(line: string): string {
    if line != "" && line[|line| - 1] == '\r' then line[..|line| - 1] else line
  }

  /** `str::lines`. */
  function Lines(s: string): seq<string> {
    if s == "" then []
    else match IndexOf(s, '\n')
      case None => [s]
      case Some(i) => [DropCr(s[..i])] + Lines(s[i + 1..])
  }

  /** `join("\n")`. */
  function JoinLines(lines: seq<string>): string {
    if lines == [] then ""
    else if |lines| == 1 then lines[0]
    else lines[0] + "\n" + JoinLines(lines[1..])
  }

  predicate HasCrLf(s: string) {
    exists i | 0 <= i < |s| - 1 :: s[i] == '\r' && s[i + 1] == '\n'
  }

  /** Splitting into lines and joining again gives the text back exactly when it is already in that form. */
  predicate LineStable(s: string) {
    s != "" && s[|s| - 1] != '\n' && !HasCrLf(s)
  }

  lemma LinesNonempty(s: string)
    ensures s != "" ==> Lines(s) != []
  {
  }

  lemma {:induction false} JoinLinesLength(s: string)
    requires s != ""
    ensures |JoinLines(Lines(s))| <= |s|
    ensures s[|s| - 1] == '\n' ==> |JoinLines(Lines(s))| < |s|
    decreases |s|
  {
    match IndexOf(s, '\n') {
      case None =>
      case Some(i) =>
        var t := s[i + 1..];
        if t == "" {
          assert Lines(s) == [DropCr(s[..i])];
        } else {
          assert t[|t| - 1] == s[|s| - 1];
          JoinLinesLength(t);
          LinesNonempty(t);
          assert Lines(s)[1..] == Lines(t);
        }
    }
  }

  lemma JoinCons(line: string, lines: seq<string>)
    requires lines != []
    ensures JoinLines([line] + lines) == line + "\n" + JoinLines(lines)
  {
  }

  /** One step of the round trip: the first line survives exactly when it has no carriage return to lose. */
  lemma FirstLine(s: string, i: nat, tail: string)
    requires i < |s| && s[i] == '\n' && |tail| <= |s| - i - 1
    ensures DropCr(s[..i]) + "\n" + tail == s <==> !(i > 0 && s[i - 1] == '\r') && tail == s[i + 1..]
  {
  }

  lemma StableTail(s: string, i: nat)
    requires i + 1 < |s| && s[i] == '\n' && '\n' !in s[..i]
    ensures LineStable(s) <==> !(i > 0 && s[i - 1] == '\r') && LineStable(s[i + 1..])
  {
  }

  lemma {:induction false} LinesRoundTrip(s: string)
    requires s != ""
    ensures JoinLines(Lines(s)) == s <==> LineStable(s)
    decreases |s|
  {
    match IndexOf(s, '\n') {
      case None =>
        assert !HasCrLf(s);
      case Some(i) =>
        var t := s[i + 1..];
        if t == "" {
          JoinLinesLength(s);
        } else {
          LinesRoundTrip(t);
          JoinLinesLength(t);
          LinesNonempty(t);
          JoinCons(DropCr(s[..i]), Lines(t));
          FirstLine(s, i, JoinLines(Lines(t)));
          StableTail(s, i);
        }
    }
  }
}
