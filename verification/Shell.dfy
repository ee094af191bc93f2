/** Lexing of shell commands into segments, and the normal form that they are printed in. */
module Shell {
  import opened Prelude
  import opened Text

  datatype ShellOperator = Pipe | Sequence | And | Or | Background

  datatype ShellSegment = ShellSegment(program: string, args: seq<string>)

  datatype ParsedShellCommand = ParsedShellCommand(
    segments: seq<ShellSegment>,
    operators: seq<ShellOperator>,
    hasEnvironmentExpansion: bool)

  datatype ShellParseError =
    | EmptyCommand
    | UnterminatedSingleQuote
    | UnterminatedDoubleQuote
    | TrailingEscape
    | UnsupportedCommandSubstitution
    | UnsupportedHereDocument
    | UnsupportedRedirection
    | MissingCommandAfterOperator

  datatype Quote = NoQuote | Single | Double

  datatype LexItem = Word(text: string) | Operator(operator: ShellOperator)

  type Items = seq<LexItem>

  datatype LexState = LexState(output: Items, token: string, quote: Quote, escaped: bool, atTokenStart: bool)

  const StartState := LexState([], "", NoQuote, false, true)

  // ---------- one character ----------

  function Flush(s: LexState): LexState {
    if s.token == "" then s else s.(output := s.output + [Word(s.token)], token := "")
  }

  predicate EndsInWord(output: Items) {
    output != [] && output[|output| - 1].Word?
  }

  datatype Move = Fail(error: ShellParseError) | Go(state: LexState, consumed: nat)

  /** An operator needs a word before it. */
  function PushOperator(s: LexState, operator: ShellOperator, consumed: nat): Move {
    if EndsInWord(s.output) then Go(s.(output := s.output + [Operator(operator)], atTokenStart := true), consumed)
    else Fail(MissingCommandAfterOperator)
  }

  function CommentLength(rest: string): (n: nat)
    ensures n <= |rest|
  {
    if rest == "" || rest[0] == '\n' then 0 else 1 + CommentLength(rest[1..])
  }

  /** Something other than blanks and comments follows. */
  predicate HasCommandAfter(rest: string)
    decreases |rest|
  {
    if rest == "" then false
    else if IsWhitespace(rest[0]) then HasCommandAfter(rest[1..])
    else if rest[0] == '#' then HasCommandAfter(rest[1 + CommentLength(rest[1..])..])
    else true
  }

  predicate NextIs(rest: string, c: char) {
    |rest| > 1 && rest[1] == c
  }

  function Pushed(s: LexState, c: char): Move {
    Go(s.(token := s.token + [c], atTokenStart := false), 1)
  }

  /** A character outside quotes. */
  function PlainChar(rest: string, s: LexState): (m: Move)
    requires rest != ""
    ensures m.Go? ==> 1 <= m.consumed <= |rest|
  {
    match rest[0]
    case '\\' => Go(s.(escaped := true), 1)
    case '\'' => Go(s.(quote := Single), 1)
    case '"' => Go(s.(quote := Double), 1)
    case '`' => Fail(UnsupportedCommandSubstitution)
    case ' ' => Go(Flush(s).(atTokenStart := true), 1)
    case '\t' => Go(Flush(s).(atTokenStart := true), 1)
    case '\r' => Go(Flush(s).(atTokenStart := true), 1)
    case '\n' =>
      var flushed := Flush(s);
      if HasCommandAfter(rest[1..]) && EndsInWord(flushed.output) then PushOperator(flushed, Sequence, 1)
      else Go(flushed.(atTokenStart := true), 1)
    case ';' => PushOperator(Flush(s), Sequence, 1)
    case '|' => if NextIs(rest, '|') then PushOperator(Flush(s), Or, 2) else PushOperator(Flush(s), Pipe, 1)
    case '&' => if NextIs(rest, '&') then PushOperator(Flush(s), And, 2) else PushOperator(Flush(s), Background, 1)
    case '>' => Fail(UnsupportedRedirection)
    case '<' => Fail(if NextIs(rest, '<') then UnsupportedHereDocument else UnsupportedRedirection)
    case c =>
      if c == '$' && NextIs(rest, '(') then Fail(UnsupportedCommandSubstitution)
      else if c == '#' && s.atTokenStart then Go(s, 1 + CommentLength(rest[1..]))
      else Pushed(s, c)
  }

  function LexChar(rest: string, s: LexState): (m: Move)
    requires rest != ""
    ensures m.Go? ==> 1 <= m.consumed <= |rest|
  {
    if s.escaped then Go(s.(token := s.token + [rest[0]], escaped := false, atTokenStart := false), 1)
    else match s.quote
      case Single =>
        if rest[0] == '\'' then Go(s.(quote := NoQuote), 1) else Go(s.(token := s.token + [rest[0]]), 1)
      case Double =>
        if rest[0] == '"' then Go(s.(quote := NoQuote), 1)
        else if rest[0] == '\\' then Go(s.(escaped := true), 1)
        else Go(s.(token := s.token + [rest[0]]), 1)
      case NoQuote => PlainChar(rest, s)
  }

  // ---------- the lexer ----------

  predicate HasWord(output: Items) {
    exists i :: 0 <= i < |output| && output[i].Word?
  }

  function LexEnd(s: LexState): Result<Items, ShellParseError> {
    if s.escaped then Err(TrailingEscape)
    else if s.quote.Single? then Err(UnterminatedSingleQuote)
    else if s.quote.Double? then Err(UnterminatedDoubleQuote)
    else if HasWord(Flush(s).output) then Ok(Flush(s).output)
    else Err(EmptyCommand)
  }

  function LexRest(rest: string, s: LexState): Result<Items, ShellParseError>
    decreases |rest|
  {
    if rest == "" then LexEnd(s)
    else match LexChar(rest, s)
      case Fail(error) => Err(error)
      case Go(next, consumed) => LexRest(rest[consumed..], next)
  }

  method Lex(command: string) returns (r: Result<Items, ShellParseError>)
    ensures r == LexRest(command, StartState)
  {
    var state, rest := StartState, command;
    while rest != ""
      invariant LexRest(rest, state) == LexRest(command, StartState)
      decreases |rest|
    {
      var move := LexChar(rest, state);
      if move.Fail? { return Err(move.error); }
      state, rest := move.state, rest[move.consumed..];
    }
    r := LexEnd(state);
  }

  // ---------- segments ----------

  /** The segments and operators of a list of items, with some words in hand. `None` if an operator lacks a command. */
  function Segments(items: Items, words: seq<string>): Option<(seq<ShellSegment>, seq<ShellOperator>)>
    decreases |items|
  {
    if items == [] then
      if words == [] then None else Some(([ShellSegment(words[0], words[1..])], []))
    else match items[0]
      case Word(text) => Segments(items[1..], words + [text])
      case Operator(operator) =>
        if words == [] then None
        else match Segments(items[1..], [])
          case None => None
          case Some((segments, operators)) =>
            Some(([ShellSegment(words[0], words[1..])] + segments, [operator] + operators))
  }

  function ParseItems(command: string, items: Items): Result<ParsedShellCommand, ShellParseError> {
    match Segments(items, [])
    case None => Err(MissingCommandAfterOperator)
    case Some((segments, operators)) => Ok(ParsedShellCommand(segments, operators, '$' in command))
  }

  function Parsed(command: string): Result<ParsedShellCommand, ShellParseError> {
    match LexRest(command, StartState)
    case Err(error) => Err(error)
    case Ok(items) => ParseItems(command, items)
  }

  method ParseShell(command: string) returns (r: Result<ParsedShellCommand, ShellParseError>)
    ensures r == Parsed(command)
  {
    var lexed := Lex(command);
    if lexed.Err? { return Err(lexed.error); }
    var items := lexed.value;
    var segments: seq<ShellSegment> := [];
    var operators: seq<ShellOperator> := [];
    var words: seq<string> := [];
    ghost var whole := Segments(items, []);
    assert items[0..] == items;
    PrependNothing(whole);
    for k := 0 to |items|
      invariant whole == Prepended(segments, operators, Segments(items[k..], words))
    {
      assert items[k..][0] == items[k] && items[k..][1..] == items[k + 1..];
      match items[k] {
        case Word(text) => words := words + [text];
        case Operator(operator) =>
          if words == [] { return Err(MissingCommandAfterOperator); }
          var next := ShellSegment(words[0], words[1..]);
          PrependedStep(segments, operators, next, operator, Segments(items[k + 1..], []));
          segments, operators := segments + [next], operators + [operator];
          words := [];
      }
    }
    assert items[|items|..] == [];
    if words == [] { return Err(MissingCommandAfterOperator); }
    assert operators + [] == operators;
    segments := segments + [ShellSegment(words[0], words[1..])];
    r := Ok(ParsedShellCommand(segments, operators, '$' in command));
  }

  function Prepended(segments: seq<ShellSegment>, operators: seq<ShellOperator>,
                     rest: Option<(seq<ShellSegment>, seq<ShellOperator>)>)
    : Option<(seq<ShellSegment>, seq<ShellOperator>)>
  {
    match rest
    case None => None
    case Some((s, o)) => Some((segments + s, operators + o))
  }

  lemma PrependNothing(rest: Option<(seq<ShellSegment>, seq<ShellOperator>)>)
    ensures Prepended([], [], rest) == rest
  {
    if rest.Some? {
      assert [] + rest.value.0 == rest.value.0 && [] + rest.value.1 == rest.value.1;
    }
  }

  lemma PrependedStep(segments: seq<ShellSegment>, operators: seq<ShellOperator>, s: ShellSegment, o: ShellOperator,
                      rest: Option<(seq<ShellSegment>, seq<ShellOperator>)>)
    ensures Prepended(segments + [s], operators + [o], rest)
         == Prepended(segments, operators, Prepended([s], [o], rest))
  {
    if rest.Some? {
      Associative(segments, [s], rest.value.0);
      Associative(operators, [o], rest.value.1);
    }
  }

  // ---------- what the lexer puts out ----------

  /** Words are not empty, and every operator follows a word. */
  ghost predicate Ordered(output: Items) {
    && (forall i | 0 <= i < |output| && output[i].Word? :: output[i].text != "")
    && (forall i | 0 <= i < |output| && output[i].Operator? :: i > 0 && output[i - 1].Word?)
  }

  lemma PushedOrdered(s: LexState, operator: ShellOperator, consumed: nat)
    requires Ordered(s.output)
    ensures var m := PushOperator(s, operator, consumed); m.Go? ==> Ordered(m.state.output)
  {
  }

  lemma FlushedOrdered(s: LexState)
    requires Ordered(s.output)
    ensures Ordered(Flush(s).output)
  {
  }

  /** A character leaves the output, ends a word, or adds an operator after one. */
  lemma LexCharAppends(rest: string, s: LexState)
    requires rest != ""
    ensures var m := LexChar(rest, s);
      m.Go? ==>
        || m.state.output == s.output
        || m.state.output == Flush(s).output
        || exists o, n :: PushOperator(Flush(s), o, n).Go?
                          && m.state.output == PushOperator(Flush(s), o, n).state.output
  {
  }

  lemma LexCharOrdered(rest: string, s: LexState)
    requires rest != "" && Ordered(s.output)
    ensures LexChar(rest, s).Go? ==> Ordered(LexChar(rest, s).state.output)
  {
    FlushedOrdered(s);
    LexCharAppends(rest, s);
    forall o, n | PushOperator(Flush(s), o, n).Go?
      ensures Ordered(PushOperator(Flush(s), o, n).state.output)
    {
      PushedOrdered(Flush(s), o, n);
    }
  }

  lemma {:induction false} LexedOrdered(rest: string, s: LexState)
    requires Ordered(s.output)
    ensures LexRest(rest, s).Ok? ==> Ordered(LexRest(rest, s).value) && HasWord(LexRest(rest, s).value)
    decreases |rest|
  {
    if rest != "" {
      LexCharOrdered(rest, s);
      match LexChar(rest, s) {
        case Go(next, consumed) => LexedOrdered(rest[consumed..], next);
        case Fail(_) =>
      }
    }
  }

  /** The same of what follows, read from the left. */
  predicate OrderedFrom(items: Items, afterWord: bool)
    decreases |items|
  {
    items == [] ||
    match items[0]
    case Word(text) => text != "" && OrderedFrom(items[1..], true)
    case Operator(_) => afterWord && OrderedFrom(items[1..], false)
  }

  lemma {:induction false} OrderedSuffix(items: Items, k: nat)
    requires Ordered(items) && k <= |items|
    ensures OrderedFrom(items[k..], k > 0 && items[k - 1].Word?)
    decreases |items| - k
  {
    if k < |items| {
      OrderedSuffix(items, k + 1);
      assert items[k..][1..] == items[k + 1..];
    }
  }

  /** Segments are one more than operators and every program is named, unless the last operator lacks its command. */
  lemma {:induction false} OrderedSegments(items: Items, words: seq<string>)
    requires OrderedFrom(items, words != []) && "" !in words
    ensures Segments(items, words).None? <==> if items == [] then words == [] else items[|items| - 1].Operator?
    ensures Segments(items, words).Some? ==>
      var (segments, operators) := Segments(items, words).value;
      |segments| == |operators| + 1 && forall s | s in segments :: s.program != ""
    decreases |items|
  {
    if items != [] {
      match items[0] {
        case Word(text) => OrderedSegments(items[1..], words + [text]);
        case Operator(_) => OrderedSegments(items[1..], []);
      }
    }
  }

  /**
   * A parsed command has one more segment than operators and no empty program. After a successful lexing only one
   * error is left: the command ends with an operator. An operator without a word before it was refused by the lexer.
   */
  lemma ParsedIsWellFormed(command: string)
    ensures match Parsed(command)
      case Ok(p) => |p.segments| == |p.operators| + 1 && forall s | s in p.segments :: s.program != ""
      case Err(error) => match LexRest(command, StartState)
        case Err(lexError) => error == lexError
        case Ok(items) => error == MissingCommandAfterOperator && items != [] && items[|items| - 1].Operator?
  {
    LexedOrdered(command, StartState);
    var lexed := LexRest(command, StartState);
    if lexed.Ok? {
      OrderedSuffix(lexed.value, 0);
      assert lexed.value[0..] == lexed.value;
      OrderedSegments(lexed.value, []);
    }
  }

  // ---------- the normal form ----------

  function JoinWords(words: seq<string>): string {
    if words == [] then "" else if |words| == 1 then words[0] else words[0] + ([' '] + JoinWords(words[1..]))
  }

  function NormalizedSegment(s: ShellSegment): string {
    JoinWords([s.program] + s.args)
  }

  function Symbol(o: ShellOperator): string {
    match o
    case Pipe => "|"
    case Sequence => ";"
    case And => "&&"
    case Or => "||"
    case Background => "&"
  }

  function Spaced(o: ShellOperator): string {
    [' '] + (Symbol(o) + [' '])
  }

  /** The segments from the `k`-th on, each after its operator. */
  function NormalizedFrom(p: ParsedShellCommand, k: nat): string
    requires |p.segments| == |p.operators| + 1 && 0 < k <= |p.segments|
    decreases |p.segments| - k
  {
    if k == |p.segments| then ""
    else Spaced(p.operators[k - 1]) + (NormalizedSegment(p.segments[k]) + NormalizedFrom(p, k + 1))
  }

  function Normalized(p: ParsedShellCommand): string
    requires |p.segments| == |p.operators| + 1
  {
    NormalizedSegment(p.segments[0]) + NormalizedFrom(p, 1)
  }

  method Normalize(p: ParsedShellCommand) returns (result: string)
    requires |p.segments| == |p.operators| + 1
    ensures result == Normalized(p)
  {
    result := NormalizedSegment(p.segments[0]);
    for k := 1 to |p.segments|
      invariant result + NormalizedFrom(p, k) == Normalized(p)
    {
      Associative(result, Spaced(p.operators[k - 1]), NormalizedSegment(p.segments[k]) + NormalizedFrom(p, k + 1));
      result := result + Spaced(p.operators[k - 1]);
      Associative(result, NormalizedSegment(p.segments[k]), NormalizedFrom(p, k + 1));
      result := result + NormalizedSegment(p.segments[k]);
    }
    assert result + "" == result;
  }

  // ---------- printing and parsing again ----------

  predicate IsPlain(c: char) {
    c !in {'\\', '\'', '"', '`', ' ', '\t', '\r', '\n', ';', '|', '&', '>', '<'}
  }

  /** A word that the lexer reads as it is: no quoting, blank or operator, no leading `#`, no `$(`. */
  predicate PlainWord(w: string) {
    && w != "" && w[0] != '#'
    && (forall i | 0 <= i < |w| :: IsPlain(w[i]))
    && (forall i | 0 <= i < |w| - 1 :: w[i] == '$' ==> w[i + 1] != '(')
  }

  predicate PlainCommand(p: ParsedShellCommand) {
    forall s | s in p.segments :: PlainWord(s.program) && forall a | a in s.args :: PlainWord(a)
  }

  predicate Rests(s: LexState) {
    s.quote.NoQuote? && !s.escaped
  }

  /** The lexer reads the rest of a plain word into its token. */
  lemma {:induction false} LexWord(w: string, rest: string, s: LexState)
    requires Rests(s) && (forall i | 0 <= i < |w| :: IsPlain(w[i]))
    requires forall i | 0 <= i < |w| - 1 :: w[i] == '$' ==> w[i + 1] != '('
    requires rest == "" || rest[0] != '('
    requires w != "" && (s.atTokenStart ==> w[0] != '#')
    ensures LexRest(w + rest, s) == LexRest(rest, s.(token := s.token + w, atTokenStart := false))
    decreases |w|
  {
    var c, more := w[0], w[1..];
    assert w == [c] + more && (w + rest)[1..] == more + rest;
    var next := s.(token := s.token + [c], atTokenStart := false);
    assert LexChar(w + rest, s) == Go(next, 1);
    if more == "" {
      assert more + rest == rest && s.token + w == s.token + [c];
    } else {
      LexWord(more, rest, next);
      Associative(s.token, [c], more);
    }
  }

  lemma LexSpace(rest: string, s: LexState)
    requires Rests(s)
    ensures LexRest([' '] + rest, s) == LexRest(rest, Flush(s).(atTokenStart := true))
  {
  }

  function Words(words: seq<string>): Items {
    seq(|words|, i requires 0 <= i < |words| => Word(words[i]))
  }

  /** The state after the words: the last one is still in hand. */
  function AfterWords(s: LexState, words: seq<string>): LexState
    requires words != []
  {
    var n := |words| - 1;
    s.(output := s.output + Words(words[..n]), token := words[n], atTokenStart := false)
  }

  /** Where a new word may begin. */
  predicate Fresh(s: LexState) {
    Rests(s) && s.token == "" && s.atTokenStart
  }

  /** The end of a word. */
  predicate Parted(rest: string) {
    rest == "" || rest[0] in {' ', '\t', '\r', '\n', ';', '|', '&'}
  }

  /** At the start of a word, and where a word may end, the lexer reads this text as this word. */
  ghost predicate Spells(text: string, word: string) {
    word != "" && forall rest, s | Fresh(s) && Parted(rest) ::
      LexRest(text + rest, s) == LexRest(rest, s.(token := word, atTokenStart := false))
  }

  lemma PlainSpells(w: string)
    requires PlainWord(w)
    ensures Spells(w, w)
  {
    forall rest, s | Fresh(s) && Parted(rest)
      ensures LexRest(w + rest, s) == LexRest(rest, s.(token := w, atTokenStart := false))
    {
      LexWord(w, rest, s);
      assert "" + w == w;
    }
  }

  ghost predicate SpellsAll(texts: seq<string>, words: seq<string>) {
    |texts| == |words| && forall i | 0 <= i < |words| :: Spells(texts[i], words[i])
  }

  lemma {:induction false} LexWords(texts: seq<string>, words: seq<string>, rest: string, s: LexState)
    requires Fresh(s) && words != [] && SpellsAll(texts, words)
    requires Parted(rest)
    ensures LexRest(JoinWords(texts) + rest, s) == LexRest(rest, AfterWords(s, words))
    decreases |words|
  {
    hide LexRest;
    var w, more := words[0], words[1..];
    assert Spells(texts[0], w) && words == [w] + more;
    if |words| == 1 {
      SpellsHere(texts[0], w, rest, s);
      assert s.output + Words(words[..0]) == s.output;
    } else {
      LexFirstWord(texts[0], w, JoinWords(texts[1..]), rest, s);
      var next := Flush(s.(token := w, atTokenStart := false)).(atTokenStart := true);
      LexWords(texts[1..], more, rest, next);
      AfterMoreWords(s, w, more);
    }
  }

  lemma SpellsHere(text: string, w: string, rest: string, s: LexState)
    requires Spells(text, w) && Fresh(s) && Parted(rest)
    ensures LexRest(text + rest, s) == LexRest(rest, s.(token := w, atTokenStart := false))
  {
    hide LexRest;
  }

  lemma LexFirstWord(text: string, w: string, more: string, rest: string, s: LexState)
    requires Fresh(s) && Spells(text, w)
    ensures LexRest((text + ([' '] + more)) + rest, s)
         == LexRest(more + rest, Flush(s.(token := w, atTokenStart := false)).(atTokenStart := true))
  {
    hide LexRest;
    var tail := [' '] + (more + rest);
    Associative(text, [' '] + more, rest);
    Associative([' '], more, rest);
    SpellsHere(text, w, tail, s);
    LexSpace(more + rest, s.(token := w, atTokenStart := false));
  }

  lemma AfterMoreWords(s: LexState, w: string, more: seq<string>)
    requires more != [] && w != ""
    ensures AfterWords(Flush(s.(token := w, atTokenStart := false)).(atTokenStart := true), more)
         == AfterWords(s, [w] + more)
  {
  }

  /** A spaced operator ends the word in hand and starts a new one. */
  lemma LexSpaced(o: ShellOperator, rest: string, s: LexState)
    requires Rests(s) && s.token != ""
    ensures LexRest(Spaced(o) + rest, s)
         == LexRest(rest, s.(output := s.output + [Word(s.token)] + [Operator(o)], token := "", atTokenStart := true))
  {
    var tail := Symbol(o) + ([' '] + rest);
    assert Spaced(o) + rest == [' '] + tail;
    LexSpace(tail, s);
    var flushed := Flush(s).(atTokenStart := true);
    var pushed := flushed.(output := flushed.output + [Operator(o)]);
    LexSymbol(o, [' '] + rest, flushed);
    LexSpace(rest, pushed);
  }

  lemma LexSymbol(o: ShellOperator, rest: string, s: LexState)
    requires Rests(s) && s.token == "" && EndsInWord(s.output) && rest != "" && rest[0] == ' '
    ensures LexRest(Symbol(o) + rest, s) == LexRest(rest, s.(output := s.output + [Operator(o)], atTokenStart := true))
  {
    var text, n := Symbol(o) + rest, |Symbol(o)|;
    assert text[n..] == rest && text[n] == ' ';
    assert LexChar(text, s) == Go(s.(output := s.output + [Operator(o)], atTokenStart := true), n);
  }

  function SegmentWords(s: ShellSegment): seq<string> {
    [s.program] + s.args
  }

  /** The items of the segments from the `k`-th on, each after its operator. */
  function ItemsFrom(p: ParsedShellCommand, k: nat): Items
    requires |p.segments| == |p.operators| + 1 && 0 < k <= |p.segments|
    decreases |p.segments| - k
  {
    if k == |p.segments| then []
    else [Operator(p.operators[k - 1])] + (Words(SegmentWords(p.segments[k])) + ItemsFrom(p, k + 1))
  }

  /** The same command, its words spelled in some way. */
  ghost predicate SpellsCommand(q: ParsedShellCommand, p: ParsedShellCommand) {
    && |p.segments| == |p.operators| + 1 && |q.segments| == |p.segments| && q.operators == p.operators
    && forall i | 0 <= i < |p.segments| :: SpellsAll(SegmentWords(q.segments[i]), SegmentWords(p.segments[i]))
  }

  lemma PlainSpellsItself(p: ParsedShellCommand)
    requires |p.segments| == |p.operators| + 1 && PlainCommand(p)
    ensures SpellsCommand(p, p)
  {
    hide Spells;
    forall i | 0 <= i < |p.segments|
      ensures SpellsAll(SegmentWords(p.segments[i]), SegmentWords(p.segments[i]))
    {
      var words := SegmentWords(p.segments[i]);
      assert p.segments[i] in p.segments;
      forall k | 0 <= k < |words|
        ensures Spells(words[k], words[k])
      {
        assert k > 0 ==> words[k] == p.segments[i].args[k - 1];
        PlainSpells(words[k]);
      }
    }
  }

  /** The state after these items: the last one is a word that is still in hand. */
  function AfterItems(s: LexState, items: Items): LexState
    requires EndsInWord(items)
  {
    var n := |items| - 1;
    s.(output := s.output + items[..n], token := items[n].text, atTokenStart := false)
  }

  lemma {:induction false} LexSegments(q: ParsedShellCommand, p: ParsedShellCommand, k: nat, s: LexState,
                                       words: seq<string>, rest: string)
    requires SpellsCommand(q, p) && 0 < k <= |p.segments| && Parted(rest)
    requires Rests(s) && words != [] && words[|words| - 1] != ""
    ensures EndsInWord(Words(words) + ItemsFrom(p, k))
    ensures LexRest(NormalizedFrom(q, k) + rest, AfterWords(s, words))
         == LexRest(rest, AfterItems(s, Words(words) + ItemsFrom(p, k)))
    decreases |p.segments| - k
  {
    hide LexRest, Spells, Spaced, JoinWords;
    var at := AfterWords(s, words);
    var n := |words| - 1;
    assert Words(words) == Words(words[..n]) + [Word(words[n])];
    Associative(s.output, Words(words[..n]), [Word(words[n])]);
    if k == |p.segments| {
      assert Words(words) + [] == Words(words) && "" + rest == rest;
      assert Words(words)[..n] == Words(words[..n]);
    } else {
      var o, texts, meant := p.operators[k - 1], SegmentWords(q.segments[k]), SegmentWords(p.segments[k]);
      var tail := NormalizedFrom(q, k + 1) + rest;
      RegroupText(Spaced(o), NormalizedSegment(q.segments[k]), NormalizedFrom(q, k + 1), rest);
      LexSpaced(o, NormalizedSegment(q.segments[k]) + tail, at);
      var next := at.(output := at.output + [Word(at.token)] + [Operator(o)], token := "", atTokenStart := true);
      SpacedParts(q, k + 1, rest);
      LexWords(texts, meant, tail, next);
      SpelledNotEmpty(texts, meant);
      LexSegments(q, p, k + 1, next, meant, rest);
      ItemsGoOn(s, Words(words), [Operator(o)], Words(meant) + ItemsFrom(p, k + 1));
    }
  }

  lemma RegroupText(a: string, b: string, c: string, d: string)
    ensures a + (b + c) + d == a + (b + (c + d))
  {
  }

  /** What follows a segment starts with a blank, or is what follows the command. */
  lemma SpacedParts(q: ParsedShellCommand, k: nat, rest: string)
    requires |q.segments| == |q.operators| + 1 && 0 < k <= |q.segments| && Parted(rest)
    ensures Parted(NormalizedFrom(q, k) + rest)
  {
  }

  lemma ItemsGoOn(s: LexState, a: Items, b: Items, c: Items)
    requires EndsInWord(c)
    ensures EndsInWord(a + (b + c))
    ensures AfterItems(s, a + (b + c)) == AfterItems(s.(output := s.output + a + b), c)
  {
    var n := |c| - 1;
    assert (a + (b + c))[..|a| + |b| + n] == a + (b + c[..n]);
  }

  lemma SpelledNotEmpty(texts: seq<string>, words: seq<string>)
    requires SpellsAll(texts, words) && words != []
    ensures words[|words| - 1] != ""
  {
    assert Spells(texts[|words| - 1], words[|words| - 1]);
  }

  lemma LexLast(s: LexState, items: Items)
    requires Rests(s) && EndsInWord(items) && items[|items| - 1].text != ""
    ensures LexRest("", AfterItems(s, items)) == Ok(s.output + items)
  {
    var n := |items| - 1;
    assert items == items[..n] + [items[n]];
    Associative(s.output, items[..n], [items[n]]);
    assert (s.output + items)[|s.output| + n].Word?;
  }

  lemma RegroupItems(a: Items, b: Items, c: Items, d: Items)
    ensures (a + b) + c + d == a + (b + (c + d))
  {
  }

  lemma {:induction false} SegmentsOfWords(ws: seq<string>, rest: Items, words: seq<string>)
    ensures Segments(Words(ws) + rest, words) == Segments(rest, words + ws)
    decreases |ws|
  {
    if ws == [] {
      assert Words(ws) + rest == rest && words + ws == words;
    } else {
      assert (Words(ws) + rest)[1..] == Words(ws[1..]) + rest;
      SegmentsOfWords(ws[1..], rest, words + [ws[0]]);
      assert words + [ws[0]] + ws[1..] == words + ws;
    }
  }

  lemma SegmentTaken(words: seq<string>, o: ShellOperator, rest: Items)
    requires words != [] && Segments(rest, []).Some?
    ensures var (segments, operators) := Segments(rest, []).value;
      Segments([Operator(o)] + rest, words)
      == Some(([ShellSegment(words[0], words[1..])] + segments, [o] + operators))
  {
    assert ([Operator(o)] + rest)[1..] == rest;
  }

  lemma WordsTaken(words: seq<string>, rest: Items)
    ensures Segments(Words(words) + rest, []) == Segments(rest, words)
  {
    SegmentsOfWords(words, rest, []);
    assert [] + words == words;
  }

  lemma {:induction false} SegmentsComeBack(p: ParsedShellCommand, k: nat)
    requires |p.segments| == |p.operators| + 1 && 0 < k <= |p.segments|
    ensures Segments(ItemsFrom(p, k), SegmentWords(p.segments[k - 1]))
         == Some((p.segments[k - 1..], p.operators[k - 1..]))
    decreases |p.segments| - k
  {
    var words := SegmentWords(p.segments[k - 1]);
    assert ShellSegment(words[0], words[1..]) == p.segments[k - 1];
    assert p.segments[k - 1..] == [p.segments[k - 1]] + p.segments[k..];
    if k == |p.segments| {
      assert p.operators[k - 1..] == [];
      assert p.segments[k - 1..] == [ShellSegment(words[0], words[1..])];
    } else {
      SegmentsComeBack(p, k + 1);
      WordsTaken(SegmentWords(p.segments[k]), ItemsFrom(p, k + 1));
      SegmentTaken(words, p.operators[k - 1], Words(SegmentWords(p.segments[k])) + ItemsFrom(p, k + 1));
      assert p.operators[k - 1..] == [p.operators[k - 1]] + p.operators[k..];
    }
  }

  function ItemsOf(p: ParsedShellCommand): Items
    requires |p.segments| == |p.operators| + 1
  {
    Words(SegmentWords(p.segments[0])) + ItemsFrom(p, 1)
  }

  /** A spelled command is read up to its last word, whatever follows. */
  lemma LexSpelledThen(q: ParsedShellCommand, p: ParsedShellCommand, rest: string, s: LexState)
    requires SpellsCommand(q, p) && Fresh(s) && Parted(rest)
    ensures EndsInWord(ItemsOf(p)) && ItemsOf(p)[|ItemsOf(p)| - 1].text != ""
    ensures LexRest(Normalized(q) + rest, s) == LexRest(rest, AfterItems(s, ItemsOf(p)))
  {
    hide LexRest, Spells;
    var texts, meant := SegmentWords(q.segments[0]), SegmentWords(p.segments[0]);
    Associative(NormalizedSegment(q.segments[0]), NormalizedFrom(q, 1), rest);
    SpacedParts(q, 1, rest);
    LexWords(texts, meant, NormalizedFrom(q, 1) + rest, s);
    SpelledNotEmpty(texts, meant);
    LexSegments(q, p, 1, s, meant, rest);
    LastItemNotEmpty(q, p);
  }

  /** The last item of a command is its last word. */
  lemma LastItemNotEmpty(q: ParsedShellCommand, p: ParsedShellCommand)
    requires SpellsCommand(q, p)
    ensures EndsInWord(ItemsOf(p)) && ItemsOf(p)[|ItemsOf(p)| - 1].text != ""
  {
    hide Spells;
    var n := |p.segments| - 1;
    var words := SegmentWords(p.segments[n]);
    SpelledNotEmpty(SegmentWords(q.segments[n]), words);
    if n == 0 {
      assert ItemsOf(p) == Words(words);
    } else {
      LastOfItems(p, 1);
    }
  }

  lemma {:induction false} LastOfItems(p: ParsedShellCommand, k: nat)
    requires |p.segments| == |p.operators| + 1 && 0 < k < |p.segments|
    ensures var items, words := ItemsFrom(p, k), SegmentWords(p.segments[|p.segments| - 1]);
      items != [] && items[|items| - 1] == Word(words[|words| - 1])
    decreases |p.segments| - k
  {
    if k + 1 < |p.segments| { LastOfItems(p, k + 1); }
  }

  lemma LexSpelledForm(q: ParsedShellCommand, p: ParsedShellCommand)
    requires SpellsCommand(q, p)
    ensures LexRest(Normalized(q), StartState) == Ok(ItemsOf(p))
  {
    hide LexRest, Spells;
    LexSpelledThen(q, p, "", StartState);
    LexLast(StartState, ItemsOf(p));
    assert Normalized(q) + "" == Normalized(q);
    assert StartState.output + ItemsOf(p) == ItemsOf(p);
  }

  lemma ItemsComeBack(p: ParsedShellCommand)
    requires |p.segments| == |p.operators| + 1
    ensures Segments(ItemsOf(p), []) == Some((p.segments, p.operators))
  {
    var words := SegmentWords(p.segments[0]);
    SegmentsOfWords(words, ItemsFrom(p, 1), []);
    assert [] + words == words;
    SegmentsComeBack(p, 1);
    assert p.segments[0..] == p.segments && p.operators[0..] == p.operators;
  }

  /**
   * Printing a command of plain words and parsing it again gives the command back; only the expansion flag is
   * computed anew from the printed text.
   */
  lemma NormalFormParsesBack(p: ParsedShellCommand)
    requires |p.segments| == |p.operators| + 1 && PlainCommand(p)
    ensures Parsed(Normalized(p)) == Ok(p.(hasEnvironmentExpansion := '$' in Normalized(p)))
    ensures Parsed(Normalized(p)) == Ok(p) <==> p.hasEnvironmentExpansion == ('$' in Normalized(p))
  {
    PlainSpellsItself(p);
    SpelledFormParses(p, p);
  }

  /** However its words are spelled, a command is read as the words that are meant. */
  lemma SpelledFormParses(q: ParsedShellCommand, p: ParsedShellCommand)
    requires SpellsCommand(q, p)
    ensures Parsed(Normalized(q)) == Ok(p.(hasEnvironmentExpansion := '$' in Normalized(q)))
  {
    hide Spells, LexRest;
    LexSpelledForm(q, p);
    ItemsComeBack(p);
  }

  // ---------- operators, lines and comments ----------

  function Lexed(command: string): Result<Items, ShellParseError> {
    LexRest(command, StartState)
  }

  lemma LexLineEnd(rest: string, s: LexState)
    requires Rests(s) && s.token != ""
    ensures LexRest(['\n'] + rest, s)
         == LexRest((if HasCommandAfter(rest) then Spaced(Sequence) else [' ']) + rest, s)
  {
    assert (['\n'] + rest)[1..] == rest;
    if HasCommandAfter(rest) { LexSpaced(Sequence, rest, s); } else { LexSpace(rest, s); }
  }

  /**
   * Behind a command, the end of a line counts as a semicolon if something other than blanks and comments follows, and
   * as a blank otherwise.
   */
  lemma LineEndMeans(q: ParsedShellCommand, p: ParsedShellCommand, rest: string)
    requires SpellsCommand(q, p)
    ensures Lexed(Normalized(q) + (['\n'] + rest))
         == Lexed(Normalized(q) + ((if HasCommandAfter(rest) then Spaced(Sequence) else [' ']) + rest))
  {
    hide LexRest, Spells, HasCommandAfter;
    var means := (if HasCommandAfter(rest) then Spaced(Sequence) else [' ']) + rest;
    LexSpelledThen(q, p, ['\n'] + rest, StartState);
    LexSpelledThen(q, p, means, StartState);
    LexLineEnd(rest, AfterItems(StartState, ItemsOf(p)));
  }

  /** What follows does not make another operator of this one. */
  predicate Stays(o: ShellOperator, rest: string) {
    rest != "" ==> (o.Pipe? ==> rest[0] != '|') && (o.Background? ==> rest[0] != '&')
  }

  lemma LexTight(o: ShellOperator, rest: string, s: LexState)
    requires Rests(s) && s.token != "" && Stays(o, rest)
    ensures LexRest(Symbol(o) + rest, s) == LexRest(Spaced(o) + rest, s)
  {
    hide LexChar, Spaced, Symbol;
    LexSpaced(o, rest, s);
    SymbolIsRead(o, rest, s);
  }

  lemma SymbolIsRead(o: ShellOperator, rest: string, s: LexState)
    requires Rests(s) && s.token != "" && Stays(o, rest)
    ensures Symbol(o) + rest != "" && (Symbol(o) + rest)[|Symbol(o)|..] == rest
    ensures LexChar(Symbol(o) + rest, s)
         == Go(s.(output := s.output + [Word(s.token)] + [Operator(o)], token := "", atTokenStart := true), |Symbol(o)|)
  {
    hide LexRest;
    var text := Symbol(o) + rest;
    assert text[0] == Symbol(o)[0] && (|text| > |Symbol(o)| ==> text[|Symbol(o)|] == rest[0]);
  }

  /** Behind a command, blanks around an operator make no difference. */
  lemma OperatorNeedsNoBlanks(q: ParsedShellCommand, p: ParsedShellCommand, o: ShellOperator, rest: string)
    requires SpellsCommand(q, p) && Stays(o, rest)
    ensures Lexed(Normalized(q) + (Symbol(o) + rest)) == Lexed(Normalized(q) + (Spaced(o) + rest))
  {
    hide LexRest, Spells;
    LexSpelledThen(q, p, Symbol(o) + rest, StartState);
    LexSpelledThen(q, p, Spaced(o) + rest, StartState);
    LexTight(o, rest, AfterItems(StartState, ItemsOf(p)));
  }

  /** A tab or a carriage return separates words as a blank does. */
  lemma BlanksAreAlike(q: ParsedShellCommand, p: ParsedShellCommand, blank: char, rest: string)
    requires SpellsCommand(q, p) && blank in {'\t', '\r'}
    ensures Lexed(Normalized(q) + ([blank] + rest)) == Lexed(Normalized(q) + ([' '] + rest))
  {
    hide LexRest, Spells;
    LexSpelledThen(q, p, [blank] + rest, StartState);
    LexSpelledThen(q, p, [' '] + rest, StartState);
    var s := AfterItems(StartState, ItemsOf(p));
    LexSpace(rest, s);
    LexStep(blank, rest, s);
  }

  lemma {:induction false} CommentEnds(c: string, rest: string)
    requires '\n' !in c && (rest == "" || rest[0] == '\n')
    ensures CommentLength(c + rest) == |c|
  {
    if c == "" {
      assert c + rest == rest;
    } else {
      assert (c + rest)[1..] == c[1..] + rest && c[0] in c;
      CommentEnds(c[1..], rest);
    }
  }

  lemma LexHash(c: string, rest: string, s: LexState)
    requires Rests(s) && s.atTokenStart && '\n' !in c && (rest == "" || rest[0] == '\n')
    ensures LexRest(['#'] + (c + rest), s) == LexRest(rest, s)
  {
    var text := ['#'] + (c + rest);
    CommentEnds(c, rest);
    assert text[1..] == c + rest && text[1 + |c|..] == rest;
    assert LexChar(text, s) == Go(s, 1 + |c|) by {
      hide CommentLength;
      assert text[0] == '#';
    }
  }

  lemma LexComment(c: string, rest: string, s: LexState)
    requires Rests(s) && s.token != "" && '\n' !in c && (rest == "" || rest[0] == '\n')
    ensures LexRest(" #" + c + rest, s) == LexRest(rest, s)
  {
    var flushed := Flush(s).(atTokenStart := true);
    assert " #" + c + rest == [' '] + (['#'] + (c + rest)) by {
      assert " #" == [' '] + ['#'];
    }
    LexSpace(['#'] + (c + rest), s);
    LexHash(c, rest, flushed);
    FlushedAnyway(rest, s);
  }

  /** At the end of a line it does not matter whether the last word was put away. */
  lemma FlushedAnyway(rest: string, s: LexState)
    requires Rests(s) && s.token != "" && (rest == "" || rest[0] == '\n')
    ensures LexRest(rest, Flush(s).(atTokenStart := true)) == LexRest(rest, s)
  {
    var flushed := Flush(s).(atTokenStart := true);
    if rest == "" {
      assert LexEnd(flushed) == LexEnd(s);
    } else {
      assert LexChar(rest, flushed) == LexChar(rest, s) by { hide HasCommandAfter; }
    }
  }

  /** A comment behind a command reaches up to the end of its line and makes no difference. */
  lemma CommentIsSkipped(q: ParsedShellCommand, p: ParsedShellCommand, c: string, rest: string)
    requires SpellsCommand(q, p) && '\n' !in c && (rest == "" || rest[0] == '\n')
    ensures Lexed(Normalized(q) + (" #" + c + rest)) == Lexed(Normalized(q) + rest)
  {
    hide LexRest, Spells;
    LexSpelledThen(q, p, " #" + c + rest, StartState);
    LexSpelledThen(q, p, rest, StartState);
    LexComment(c, rest, AfterItems(StartState, ItemsOf(p)));
  }

  /** One command after the other. */
  function Joined(p: ParsedShellCommand, q: ParsedShellCommand): ParsedShellCommand {
    ParsedShellCommand(p.segments + q.segments, p.operators + [Sequence] + q.operators, false)
  }

  lemma {:induction false} SecondPrinted(p: ParsedShellCommand, q: ParsedShellCommand, k: nat)
    requires |p.segments| == |p.operators| + 1 && |q.segments| == |q.operators| + 1 && 0 < k <= |q.segments|
    ensures NormalizedFrom(Joined(p, q), |p.segments| + k) == NormalizedFrom(q, k)
    decreases |q.segments| - k
  {
    hide NormalizedSegment, Spaced;
    var j, n := Joined(p, q), |p.segments|;
    if k < |q.segments| {
      SecondPrinted(p, q, k + 1);
      assert j.segments[n + k] == q.segments[k] && j.operators[n + k - 1] == q.operators[k - 1];
    }
  }

  lemma {:induction false} FirstPrinted(p: ParsedShellCommand, q: ParsedShellCommand, k: nat)
    requires |p.segments| == |p.operators| + 1 && |q.segments| == |q.operators| + 1 && 0 < k <= |p.segments|
    ensures NormalizedFrom(Joined(p, q), k) == NormalizedFrom(p, k) + (Spaced(Sequence) + Normalized(q))
    decreases |p.segments| - k
  {
    var j := Joined(p, q);
    if k == |p.segments| {
      SecondPrinted(p, q, 1);
      assert j.segments[k] == q.segments[0] && j.operators[k - 1] == Sequence;
      assert "" + (Spaced(Sequence) + Normalized(q)) == Spaced(Sequence) + Normalized(q);
    } else {
      FirstPrinted(p, q, k + 1);
      RegroupText(Spaced(p.operators[k - 1]), NormalizedSegment(p.segments[k]), NormalizedFrom(p, k + 1),
                  Spaced(Sequence) + Normalized(q));
    }
  }

  lemma JoinedPrinted(p: ParsedShellCommand, q: ParsedShellCommand)
    requires |p.segments| == |p.operators| + 1 && |q.segments| == |q.operators| + 1
    ensures Normalized(Joined(p, q)) == Normalized(p) + (Spaced(Sequence) + Normalized(q))
  {
    FirstPrinted(p, q, 1);
    Associative(NormalizedSegment(p.segments[0]), NormalizedFrom(p, 1), Spaced(Sequence) + Normalized(q));
  }

  lemma JoinedSpells(q: ParsedShellCommand, p: ParsedShellCommand, q2: ParsedShellCommand, p2: ParsedShellCommand)
    requires SpellsCommand(q, p) && SpellsCommand(q2, p2)
    ensures SpellsCommand(Joined(q, q2), Joined(p, p2))
  {
    hide SpellsAll;
  }

  /** Two commands on two lines, with a comment between them, are read as one after the other. */
  lemma LinesAreSequenced(q: ParsedShellCommand, p: ParsedShellCommand, c: string, q2: ParsedShellCommand,
                          p2: ParsedShellCommand)
    requires SpellsCommand(q, p) && SpellsCommand(q2, p2) && '\n' !in c && HasCommandAfter(Normalized(q2))
    ensures var lines := Normalized(q) + (" #" + c + (['\n'] + Normalized(q2)));
      Parsed(lines) == Ok(Joined(p, p2).(hasEnvironmentExpansion := '$' in lines))
  {
    hide LexRest, Spells, HasCommandAfter;
    CommentIsSkipped(q, p, c, ['\n'] + Normalized(q2));
    LineEndMeans(q, p, Normalized(q2));
    JoinedPrinted(q, q2);
    JoinedSpells(q, p, q2, p2);
    LexSpelledForm(Joined(q, q2), Joined(p, p2));
    ItemsComeBack(Joined(p, p2));
  }

  /** A line of a blank that separates no words becomes an argument of the command before it. */
  lemma BlankLineBecomesArgument()
    ensures Parsed("ls\n\U{A0}") == Ok(ParsedShellCommand([ShellSegment("ls", ["\U{A0}"])], [], false))
  {
    var p := ParsedShellCommand([ShellSegment("ls", [])], [], false);
    var both := ParsedShellCommand([ShellSegment("ls", ["\U{A0}"])], [], false);
    assert !HasCommandAfter("\U{A0}");
    hide LexRest, Spells, HasCommandAfter;
    assert PlainCommand(p) && PlainCommand(both) by {
      assert PlainWord("ls") && PlainWord("\U{A0}");
    }
    PlainSpellsItself(p);
    LineEndMeans(p, p, "\U{A0}");
    NormalFormParsesBack(both);
    assert Normalized(p) == "ls";
    assert JoinWords(["\U{A0}"]) == "\U{A0}" && ["ls", "\U{A0}"][1..] == ["\U{A0}"];
    assert Normalized(both) == "ls" + ([' '] + "\U{A0}");
    assert "ls\n\U{A0}" == "ls" + (['\n'] + "\U{A0}");
  }

  // ---------- quoting ----------

  /** Every character behind a backslash. */
  function Escaped(w: string): string {
    if w == "" then "" else ['\\', w[0]] + Escaped(w[1..])
  }

  function SingleQuoted(w: string): string {
    ['\''] + (w + ['\''])
  }

  function DoubleEscaped(w: string): string {
    if w == "" then "" else (if w[0] == '"' || w[0] == '\\' then ['\\', w[0]] else [w[0]]) + DoubleEscaped(w[1..])
  }

  function DoubleQuoted(w: string): string {
    ['"'] + (DoubleEscaped(w) + ['"'])
  }

  lemma LexStep(c: char, rest: string, s: LexState)
    requires LexChar([c] + rest, s).Go? && LexChar([c] + rest, s).consumed == 1
    ensures LexRest([c] + rest, s) == LexRest(rest, LexChar([c] + rest, s).state)
  {
    assert ([c] + rest)[1..] == rest;
  }

  lemma {:induction false} EscapedReads(w: string, rest: string, s: LexState)
    requires Rests(s) && w != ""
    ensures LexRest(Escaped(w) + rest, s) == LexRest(rest, s.(token := s.token + w, atTokenStart := false))
    decreases |w|
  {
    var c, more := w[0], w[1..];
    var tail := Escaped(more) + rest;
    var open := s.(escaped := true);
    var next := s.(token := s.token + [c], atTokenStart := false);
    assert Escaped(w) + rest == ['\\'] + ([c] + tail);
    LexStep('\\', [c] + tail, s);
    LexStep(c, tail, open);
    assert w == [c] + more;
    if more == "" {
      assert tail == rest && s.token + w == s.token + [c];
    } else {
      EscapedReads(more, rest, next);
      Associative(s.token, [c], more);
    }
  }

  lemma {:induction false} SingleReads(w: string, rest: string, s: LexState)
    requires s.quote.Single? && !s.escaped && '\'' !in w
    ensures LexRest(w + rest, s) == LexRest(rest, s.(token := s.token + w))
    decreases |w|
  {
    if w == "" {
      assert w + rest == rest && s.token + w == s.token;
    } else {
      var c, more := w[0], w[1..];
      assert w == [c] + more && c in w;
      Associative([c], more, rest);
      LexStep(c, more + rest, s);
      SingleReads(more, rest, s.(token := s.token + [c]));
      Associative(s.token, [c], more);
    }
  }

  /** What a double-quoted text leaves: its characters, and no start of a word once something was escaped. */
  lemma {:induction false} DoubleReads(w: string, rest: string, s: LexState) returns (start: bool)
    requires s.quote.Double? && !s.escaped
    ensures LexRest(DoubleEscaped(w) + rest, s) == LexRest(rest, s.(token := s.token + w, atTokenStart := start))
    decreases |w|
  {
    if w == "" {
      start := s.atTokenStart;
      assert DoubleEscaped(w) + rest == rest && s.token + w == s.token;
    } else {
      var c, more := w[0], w[1..];
      var tail := DoubleEscaped(more) + rest;
      assert w == [c] + more;
      Associative(s.token, [c], more);
      if c == '"' || c == '\\' {
        assert DoubleEscaped(w) + rest == ['\\'] + ([c] + tail);
        LexStep('\\', [c] + tail, s);
        LexStep(c, tail, s.(escaped := true));
        start := DoubleReads(more, rest, s.(token := s.token + [c], atTokenStart := false));
      } else {
        assert DoubleEscaped(w) + rest == [c] + tail;
        LexStep(c, tail, s);
        start := DoubleReads(more, rest, s.(token := s.token + [c]));
      }
    }
  }

  /** At the end of a word it does not matter whether a comment could start. */
  lemma StartForgotten(rest: string, s: LexState, start: bool)
    requires Rests(s) && Parted(rest)
    ensures LexRest(rest, s.(atTokenStart := start)) == LexRest(rest, s.(atTokenStart := false))
  {
  }

  lemma EscapedSpells(w: string)
    requires w != ""
    ensures Spells(Escaped(w), w)
  {
    forall rest, s | Fresh(s) && Parted(rest)
      ensures LexRest(Escaped(w) + rest, s) == LexRest(rest, s.(token := w, atTokenStart := false))
    {
      EscapedReads(w, rest, s);
      assert "" + w == w;
    }
  }

  lemma SingleSpells(w: string)
    requires w != "" && '\'' !in w
    ensures Spells(SingleQuoted(w), w)
  {
    forall rest, s | Fresh(s) && Parted(rest)
      ensures LexRest(SingleQuoted(w) + rest, s) == LexRest(rest, s.(token := w, atTokenStart := false))
    {
      SingleQuotedReads(w, rest, s);
    }
  }

  lemma SingleQuotedReads(w: string, rest: string, s: LexState)
    requires Fresh(s) && Parted(rest) && '\'' !in w
    ensures LexRest(SingleQuoted(w) + rest, s) == LexRest(rest, s.(token := w, atTokenStart := false))
  {
    var open := s.(quote := Single);
    assert SingleQuoted(w) + rest == ['\''] + (w + (['\''] + rest));
    LexStep('\'', w + (['\''] + rest), s);
    SingleReads(w, ['\''] + rest, open);
    assert "" + w == w;
    LexStep('\'', rest, open.(token := w));
    StartForgotten(rest, s.(token := w), s.atTokenStart);
  }

  lemma DoubleSpells(w: string)
    requires w != ""
    ensures Spells(DoubleQuoted(w), w)
  {
    forall rest, s | Fresh(s) && Parted(rest)
      ensures LexRest(DoubleQuoted(w) + rest, s) == LexRest(rest, s.(token := w, atTokenStart := false))
    {
      DoubleQuotedReads(w, rest, s);
    }
  }

  lemma DoubleQuotedReads(w: string, rest: string, s: LexState)
    requires Fresh(s) && Parted(rest)
    ensures LexRest(DoubleQuoted(w) + rest, s) == LexRest(rest, s.(token := w, atTokenStart := false))
  {
    var open := s.(quote := Double);
    assert DoubleQuoted(w) + rest == ['"'] + (DoubleEscaped(w) + (['"'] + rest));
    LexStep('"', DoubleEscaped(w) + (['"'] + rest), s);
    var start := DoubleReads(w, ['"'] + rest, open);
    assert "" + w == w;
    LexStep('"', rest, open.(token := w, atTokenStart := start));
    StartForgotten(rest, s.(token := w), start);
  }

  /** A quote that is never closed is refused, whatever else the text holds. */
  lemma {:induction false} OpenSingleIsRefused(w: string, s: LexState)
    requires s.quote.Single? && !s.escaped
    ensures '\'' !in w ==> LexRest(w, s) == Err(UnterminatedSingleQuote)
  {
    if '\'' !in w {
      SingleReads(w, "", s);
      assert w + "" == w;
    }
  }

  lemma OpenDoubleIsRefused(w: string, s: LexState)
    requires s.quote.Double? && !s.escaped
    ensures LexRest(DoubleEscaped(w), s) == Err(UnterminatedDoubleQuote)
  {
    var start := DoubleReads(w, "", s);
    assert DoubleEscaped(w) + "" == DoubleEscaped(w);
  }

  lemma BehindWords(words: seq<string>, texts: seq<string>, t: string, error: ShellParseError)
    requires words != [] && SpellsAll(texts, words) && t != ""
    requires forall s | Rests(s) :: PlainChar(t, s) == Fail(error)
    ensures LexRest(JoinWords(texts) + ([' '] + t), StartState) == Err(error)
  {
    hide Spells, PlainChar;
    var s := AfterWords(StartState, words);
    LexWords(texts, words, [' '] + t, StartState);
    LexSpace(t, s);
    assert LexChar(t, Flush(s).(atTokenStart := true)) == Fail(error);
  }

  /** Substitutions, redirections and here-documents are refused behind any words. */
  lemma DynamicTextIsRefused(words: seq<string>, texts: seq<string>, rest: string)
    requires words != [] && SpellsAll(texts, words)
    ensures var before := JoinWords(texts);
      && LexRest(before + ([' '] + ("`" + rest)), StartState) == Err(UnsupportedCommandSubstitution)
      && LexRest(before + ([' '] + ("$(" + rest)), StartState) == Err(UnsupportedCommandSubstitution)
      && LexRest(before + ([' '] + (">" + rest)), StartState) == Err(UnsupportedRedirection)
      && LexRest(before + ([' '] + ("<<" + rest)), StartState) == Err(UnsupportedHereDocument)
  {
    hide LexRest, Spells;
    BehindWords(words, texts, "`" + rest, UnsupportedCommandSubstitution);
    BehindWords(words, texts, "$(" + rest, UnsupportedCommandSubstitution);
    BehindWords(words, texts, ">" + rest, UnsupportedRedirection);
    BehindWords(words, texts, "<<" + rest, UnsupportedHereDocument);
  }

  // ---------- only plain words come back ----------

  /** A character that is lost unless it ends up in a word. */
  predicate Weighs(c: char) {
    c !in {' ', ';', '|', '&'}
  }

  function Worth(c: char): nat {
    if Weighs(c) then 1 else 0
  }

  function Weight(text: string): nat {
    if text == "" then 0 else Worth(text[0]) + Weight(text[1..])
  }

  lemma {:induction false} WeightAppend(a: string, b: string)
    ensures Weight(a + b) == Weight(a) + Weight(b)
  {
    if a == "" {
      assert a + b == b;
    } else {
      assert (a + b)[1..] == a[1..] + b;
      WeightAppend(a[1..], b);
    }
  }

  function ItemsWeight(items: Items): nat {
    if items == [] then 0
    else
      var last := items[|items| - 1];
      ItemsWeight(items[..|items| - 1]) + if last.Word? then Weight(last.text) else 0
  }

  lemma ItemsWeightSnoc(items: Items, item: LexItem)
    ensures ItemsWeight(items + [item]) == ItemsWeight(items) + if item.Word? then Weight(item.text) else 0
  {
  }

  /** What the lexer has in its hands. */
  function StateWeight(s: LexState): nat {
    ItemsWeight(s.output) + Weight(s.token)
  }

  lemma FlushWeighs(s: LexState)
    ensures StateWeight(Flush(s)) == StateWeight(s)
  {
    if s.token != "" { ItemsWeightSnoc(s.output, Word(s.token)); }
  }

  lemma OperatorWeighs(s: LexState, o: ShellOperator, n: nat)
    ensures PushOperator(s, o, n).Go? ==> StateWeight(PushOperator(s, o, n).state) == StateWeight(s)
  {
    ItemsWeightSnoc(s.output, Operator(o));
  }

  lemma PushWeighs(s: LexState, c: char)
    ensures ItemsWeight(s.output) + Weight(s.token + [c]) == StateWeight(s) + Worth(c)
  {
    WeightAppend(s.token, [c]);
    assert [c][1..] == "";
  }

  predicate SameHands(s: LexState, t: LexState) {
    s.output == t.output && s.token == t.token
  }

  /** Every character outside quotes is taken into the token, ends it, or is dropped. */
  ghost predicate Moves(rest: string, s: LexState, m: Move)
    requires rest != "" && m.Go?
  {
    || m == Pushed(s, rest[0]) || SameHands(m.state, s) || SameHands(m.state, Flush(s))
    || exists o, n :: PushOperator(Flush(s), o, n).Go? && SameHands(m.state, PushOperator(Flush(s), o, n).state)
  }

  lemma PlainCharMoves(rest: string, s: LexState)
    requires rest != "" && PlainChar(rest, s).Go?
    ensures Moves(rest, s, PlainChar(rest, s))
    ensures PlainChar(rest, s) == Pushed(s, rest[0]) ==> IsPlain(rest[0])
  {
  }

  /** One character outside quotes gains nothing; only plain ones keep what they weigh. */
  lemma PlainCharWeighs(rest: string, s: LexState)
    requires rest != "" && PlainChar(rest, s).Go?
    ensures var m := PlainChar(rest, s);
      && StateWeight(m.state) <= StateWeight(s) + Worth(rest[0])
      && (StateWeight(m.state) == StateWeight(s) + Worth(rest[0]) && Weighs(rest[0]) ==>
            m == Pushed(s, rest[0]) && IsPlain(rest[0]))
  {
    PlainCharMoves(rest, s);
    MovesWeigh(rest, s, PlainChar(rest, s));
  }

  lemma MovesWeigh(rest: string, s: LexState, m: Move)
    requires rest != "" && m.Go? && Moves(rest, s, m)
    ensures StateWeight(m.state) <= StateWeight(s) + Worth(rest[0])
    ensures m == Pushed(s, rest[0]) || StateWeight(m.state) == StateWeight(s)
  {
    FlushWeighs(s);
    if m == Pushed(s, rest[0]) {
      PushWeighs(s, rest[0]);
    } else if o, n :| PushOperator(Flush(s), o, n).Go? && SameHands(m.state, PushOperator(Flush(s), o, n).state) {
      OperatorWeighs(Flush(s), o, n);
    }
  }

  lemma LexCharWeighs(rest: string, s: LexState)
    requires rest != "" && LexChar(rest, s).Go?
    ensures StateWeight(LexChar(rest, s).state) <= StateWeight(s) + Worth(rest[0])
  {
    if Rests(s) { PlainCharWeighs(rest, s); } else { PushWeighs(s, rest[0]); }
  }

  lemma {:induction false} WeightOfRest(rest: string, n: nat)
    requires 0 < n <= |rest|
    ensures Weight(rest[n..]) + Worth(rest[0]) <= Weight(rest)
  {
    WeightAppend(rest[..n], rest[n..]);
    assert rest == rest[..n] + rest[n..];
  }

  /** Lexing never makes weight. */
  lemma {:induction false} LexLosesWeight(rest: string, s: LexState)
    ensures LexRest(rest, s).Ok? ==> ItemsWeight(LexRest(rest, s).value) <= StateWeight(s) + Weight(rest)
    decreases |rest|
  {
    if rest == "" {
      FlushWeighs(s);
    } else if LexChar(rest, s).Go? {
      var m := LexChar(rest, s);
      LexCharWeighs(rest, s);
      WeightOfRest(rest, m.consumed);
      LexLosesWeight(rest[m.consumed..], m.state);
    }
  }

  /** So far every word is plain, and the token will be, whatever plain characters follow. */
  ghost predicate Clean(rest: string, s: LexState) {
    && Rests(s) && (s.token == "" ==> s.atTokenStart) && (s.token != "" ==> PlainWord(s.token))
    && (s.token != "" && s.token[|s.token| - 1] == '$' ==> rest == "" || rest[0] != '(')
    && AllPlain(s.output)
  }

  ghost predicate AllPlain(items: Items) {
    forall i | 0 <= i < |items| && items[i].Word? :: PlainWord(items[i].text)
  }

  lemma CleanFlush(s: LexState, rest: string)
    requires Clean(rest, s)
    ensures AllPlain(Flush(s).output) && Flush(s).token == "" && Rests(Flush(s))
  {
  }

  /** A character of an untouched text keeps everything clean. */
  lemma CleanStep(rest: string, s: LexState)
    requires rest != "" && Clean(rest, s) && LexChar(rest, s).Go?
    requires var m := LexChar(rest, s);
      StateWeight(m.state) + Weight(rest[m.consumed..]) == StateWeight(s) + Weight(rest)
    ensures var m := LexChar(rest, s); Clean(rest[m.consumed..], m.state)
  {
    var m := LexChar(rest, s);
    PlainCharWeighs(rest, s);
    WeightOfRest(rest, m.consumed);
    CleanFlush(s, rest);
    if !Weighs(rest[0]) { SeparatorIsClean(rest, s); } else { PushedIsClean(rest, s); }
  }

  lemma SeparatorIsClean(rest: string, s: LexState)
    requires rest != "" && Clean(rest, s) && LexChar(rest, s).Go? && !Weighs(rest[0])
    ensures var m := LexChar(rest, s); Clean(rest[m.consumed..], m.state)
  {
    CleanFlush(s, rest);
  }

  lemma PushedIsClean(rest: string, s: LexState)
    requires rest != "" && Clean(rest, s) && IsPlain(rest[0]) && LexChar(rest, s) == Pushed(s, rest[0])
    ensures Clean(rest[1..], Pushed(s, rest[0]).state)
  {
    var c, longer := rest[0], s.token + [rest[0]];
    assert s.token == "" ==> c != '#' || !s.atTokenStart;
    assert PlainWord(longer) by {
      forall i | 0 <= i < |longer| - 1 && longer[i] == '$'
        ensures longer[i + 1] != '('
      {
        assert longer[i] == s.token[i];
      }
    }
  }

  /** If lexing loses no weight, all its words are plain. */
  lemma {:induction false} UntouchedIsPlain(rest: string, s: LexState)
    requires Clean(rest, s) && LexRest(rest, s).Ok?
    requires ItemsWeight(LexRest(rest, s).value) == StateWeight(s) + Weight(rest)
    ensures AllPlain(LexRest(rest, s).value)
    decreases |rest|
  {
    if rest == "" {
      CleanFlush(s, rest);
    } else {
      var m := LexChar(rest, s);
      LexCharWeighs(rest, s);
      WeightOfRest(rest, m.consumed);
      LexLosesWeight(rest[m.consumed..], m.state);
      CleanStep(rest, s);
      UntouchedIsPlain(rest[m.consumed..], m.state);
    }
  }

  function WordsWeight(words: seq<string>): nat {
    if words == [] then 0 else Weight(words[0]) + WordsWeight(words[1..])
  }

  lemma {:induction false} JoinWeighs(words: seq<string>)
    ensures Weight(JoinWords(words)) == WordsWeight(words)
  {
    if |words| > 1 {
      JoinWeighs(words[1..]);
      WeightAppend([' '], JoinWords(words[1..]));
      WeightAppend(words[0], [' '] + JoinWords(words[1..]));
    }
  }

  lemma {:induction false} WordsWeigh(words: seq<string>, before: Items)
    ensures ItemsWeight(before + Words(words)) == ItemsWeight(before) + WordsWeight(words)
    decreases |words|
  {
    if words == [] {
      assert before + Words(words) == before;
    } else {
      ItemsWeightSnoc(before, Word(words[0]));
      WordsWeigh(words[1..], before + [Word(words[0])]);
      assert before + Words(words) == (before + [Word(words[0])]) + Words(words[1..]);
    }
  }

  lemma SpacedWeighs(o: ShellOperator)
    ensures Weight(Spaced(o)) == 0
  {
    WeightAppend(Symbol(o), [' ']);
    WeightAppend([' '], Symbol(o) + [' ']);
    assert Weight(Symbol(o)) == 0;
  }

  lemma PrintedStepWeighs(p: ParsedShellCommand, k: nat)
    requires |p.segments| == |p.operators| + 1 && 0 < k < |p.segments|
    ensures Weight(NormalizedFrom(p, k)) == WordsWeight(SegmentWords(p.segments[k])) + Weight(NormalizedFrom(p, k + 1))
  {
    JoinWeighs(SegmentWords(p.segments[k]));
    SpacedWeighs(p.operators[k - 1]);
    WeightAppend(NormalizedSegment(p.segments[k]), NormalizedFrom(p, k + 1));
    WeightAppend(Spaced(p.operators[k - 1]), NormalizedSegment(p.segments[k]) + NormalizedFrom(p, k + 1));
  }

  /** The printed segments weigh what their items weigh. */
  lemma {:induction false} PrintedWeighs(p: ParsedShellCommand, k: nat, before: Items)
    requires |p.segments| == |p.operators| + 1 && 0 < k <= |p.segments|
    ensures ItemsWeight(before + ItemsFrom(p, k)) == ItemsWeight(before) + Weight(NormalizedFrom(p, k))
    decreases |p.segments| - k
  {
    if k == |p.segments| {
      assert before + [] == before;
    } else {
      var o, words := Operator(p.operators[k - 1]), SegmentWords(p.segments[k]);
      PrintedStepWeighs(p, k);
      ItemsWeightSnoc(before, o);
      WordsWeigh(words, before + [o]);
      PrintedWeighs(p, k + 1, before + [o] + Words(words));
      RegroupItems(before, [o], Words(words), ItemsFrom(p, k + 1));
    }
  }

  lemma NormalFormWeighs(p: ParsedShellCommand)
    requires |p.segments| == |p.operators| + 1
    ensures ItemsWeight(ItemsOf(p)) == Weight(Normalized(p))
  {
    var words := SegmentWords(p.segments[0]);
    WordsWeigh(words, []);
    assert [] + Words(words) == Words(words);
    PrintedWeighs(p, 1, Words(words));
    JoinWeighs(words);
    WeightAppend(NormalizedSegment(p.segments[0]), NormalizedFrom(p, 1));
  }

  /** The items of a list of segments and operators. */
  function Itemized(segments: seq<ShellSegment>, operators: seq<ShellOperator>): Items
    requires |segments| == |operators| + 1
  {
    var first := Words(SegmentWords(segments[0]));
    if operators == [] then first else first + ([Operator(operators[0])] + Itemized(segments[1..], operators[1..]))
  }

  lemma {:induction false} ItemizedFrom(p: ParsedShellCommand, k: nat)
    requires |p.segments| == |p.operators| + 1 && 0 < k <= |p.segments|
    ensures Itemized(p.segments[k - 1..], p.operators[k - 1..])
         == Words(SegmentWords(p.segments[k - 1])) + ItemsFrom(p, k)
    decreases |p.segments| - k
  {
    if k < |p.segments| {
      ItemizedFrom(p, k + 1);
      assert p.segments[k - 1..][1..] == p.segments[k..] && p.operators[k - 1..][1..] == p.operators[k..];
    } else {
      assert p.operators[k - 1..] == [];
    }
  }

  lemma ItemizedCons(words: seq<string>, o: ShellOperator, segments: seq<ShellSegment>, operators: seq<ShellOperator>)
    requires words != [] && |segments| == |operators| + 1
    ensures Itemized([ShellSegment(words[0], words[1..])] + segments, [o] + operators)
         == Words(words) + ([Operator(o)] + Itemized(segments, operators))
  {
    assert SegmentWords(ShellSegment(words[0], words[1..])) == words;
    assert ([ShellSegment(words[0], words[1..])] + segments)[1..] == segments && ([o] + operators)[1..] == operators;
  }

  lemma WordTaken(items: Items, words: seq<string>)
    requires items != [] && items[0].Word?
    ensures Words(words + [items[0].text]) + items[1..] == Words(words) + items
  {
  }

  /** The segments tell the items that they were made of. */
  lemma {:induction false} SegmentsTellItems(items: Items, words: seq<string>)
    requires Segments(items, words).Some?
    ensures var (segments, operators) := Segments(items, words).value;
      |segments| == |operators| + 1 && Itemized(segments, operators) == Words(words) + items
    decreases |items|
  {
    if items == [] {
      assert SegmentWords(ShellSegment(words[0], words[1..])) == words;
      assert Words(words) + [] == Words(words);
    } else if items[0].Word? {
      SegmentsTellItems(items[1..], words + [items[0].text]);
      WordTaken(items, words);
    } else {
      SegmentsTellItems(items[1..], []);
      var (segments, operators) := Segments(items[1..], []).value;
      ItemizedCons(words, items[0].operator, segments, operators);
      assert Itemized(segments, operators) == items[1..];
      assert items == [items[0]] + items[1..];
    }
  }

  lemma PlainItems(p: ParsedShellCommand)
    requires |p.segments| == |p.operators| + 1 && AllPlain(ItemsOf(p))
    ensures PlainCommand(p)
  {
    forall s, w | s in p.segments && w in SegmentWords(s)
      ensures PlainWord(w)
    {
      var i :| 0 <= i < |p.segments| && p.segments[i] == s;
      assert AllPlain(Words(SegmentWords(p.segments[0])) + ItemsFrom(p, 1));
      PlainFrom(p, i, 1, Words(SegmentWords(p.segments[0])));
      var j :| 0 <= j < |SegmentWords(s)| && SegmentWords(s)[j] == w;
      assert Words(SegmentWords(s))[j] == Word(w);
    }
    forall s | s in p.segments
      ensures PlainWord(s.program) && forall a | a in s.args :: PlainWord(a)
    {
      assert s.program in SegmentWords(s);
      forall a | a in s.args
        ensures a in SegmentWords(s)
      {
      }
    }
  }

  lemma {:induction false} PlainFrom(p: ParsedShellCommand, i: nat, k: nat, before: Items)
    requires |p.segments| == |p.operators| + 1 && 0 < k <= |p.segments| && k - 1 <= i < |p.segments|
    requires AllPlain(before + ItemsFrom(p, k))
    requires before == Words(SegmentWords(p.segments[k - 1]))
    ensures AllPlain(Words(SegmentWords(p.segments[i])))
    decreases |p.segments| - k
  {
    PartsArePlain(before, ItemsFrom(p, k));
    if i >= k {
      var o, next := [Operator(p.operators[k - 1])], Words(SegmentWords(p.segments[k]));
      PartsArePlain(o, next + ItemsFrom(p, k + 1));
      PlainFrom(p, i, k + 1, next);
    }
  }

  lemma PartsArePlain(a: Items, b: Items)
    requires AllPlain(a + b)
    ensures AllPlain(a) && AllPlain(b)
  {
    forall i | 0 <= i < |a|
      ensures (a + b)[i] == a[i]
    {
    }
    forall i | 0 <= i < |b|
      ensures (a + b)[|a| + i] == b[i]
    {
    }
  }

  lemma OnlyPlainComesBack(p: ParsedShellCommand)
    requires |p.segments| == |p.operators| + 1
    requires Parsed(Normalized(p)) == Ok(p.(hasEnvironmentExpansion := '$' in Normalized(p)))
    ensures PlainCommand(p)
  {
    var items := LexRest(Normalized(p), StartState).value;
    SegmentsTellItems(items, []);
    ItemizedFrom(p, 1);
    assert p.segments[0..] == p.segments && p.operators[0..] == p.operators;
    assert Words([]) + items == items;
    assert items == ItemsOf(p);
    NormalFormWeighs(p);
    UntouchedIsPlain(Normalized(p), StartState);
    PlainItems(p);
  }

  /** A command comes back from its normal form exactly if all its words are plain and its flag says what they show. */
  lemma ComesBackExactlyWhenPlain(p: ParsedShellCommand)
    requires |p.segments| == |p.operators| + 1
    ensures Parsed(Normalized(p)) == Ok(p.(hasEnvironmentExpansion := '$' in Normalized(p))) <==> PlainCommand(p)
    ensures Parsed(Normalized(p)) == Ok(p) <==> PlainCommand(p) && p.hasEnvironmentExpansion == ('$' in Normalized(p))
  {
    if PlainCommand(p) {
      NormalFormParsesBack(p);
    } else if Parsed(Normalized(p)).Ok? {
      var back := Parsed(Normalized(p)).value;
      if back.segments == p.segments && back.operators == p.operators { OnlyPlainComesBack(p); }
    }
  }

  /** Normalizing is idempotent: what the printed text parses to is printed the same. */
  lemma NormalFormIsStable(p: ParsedShellCommand, q: ParsedShellCommand)
    requires |p.segments| == |p.operators| + 1 && PlainCommand(p) && Parsed(Normalized(p)) == Ok(q)
    ensures |q.segments| == |q.operators| + 1 && Normalized(q) == Normalized(p)
  {
    NormalFormParsesBack(p);
    FlagDoesNotShow(p, '$' in Normalized(p), 1);
  }

  lemma {:induction false} FlagDoesNotShow(p: ParsedShellCommand, flag: bool, k: nat)
    requires |p.segments| == |p.operators| + 1 && 0 < k <= |p.segments|
    ensures NormalizedFrom(p.(hasEnvironmentExpansion := flag), k) == NormalizedFrom(p, k)
    decreases |p.segments| - k
  {
    if k < |p.segments| { FlagDoesNotShow(p, flag, k + 1); }
  }

  lemma {:induction false} NoDollarInWords(words: seq<string>)
    requires forall w | w in words :: '$' !in w
    ensures '$' !in JoinWords(words)
  {
    if |words| > 1 { NoDollarInWords(words[1..]); }
  }

  lemma {:induction false} NoDollarFrom(p: ParsedShellCommand, k: nat)
    requires |p.segments| == |p.operators| + 1 && 0 < k <= |p.segments|
    requires forall s | s in p.segments :: '$' !in s.program && forall a | a in s.args :: '$' !in a
    ensures '$' !in NormalizedFrom(p, k)
    decreases |p.segments| - k
  {
    if k < |p.segments| {
      assert p.segments[k] in p.segments;
      NoDollarInWords(SegmentWords(p.segments[k]));
      NoDollarFrom(p, k + 1);
      assert '$' !in Spaced(p.operators[k - 1]);
    }
  }

  /** Plain words without a dollar sign, in a command without expansions, come back exactly. */
  lemma PlainCommandRoundTrips(p: ParsedShellCommand)
    requires |p.segments| == |p.operators| + 1 && PlainCommand(p) && !p.hasEnvironmentExpansion
    requires forall s | s in p.segments :: '$' !in s.program && forall a | a in s.args :: '$' !in a
    ensures Parsed(Normalized(p)) == Ok(p)
  {
    NormalFormParsesBack(p);
    assert p.segments[0] in p.segments;
    NoDollarInWords(SegmentWords(p.segments[0]));
    NoDollarFrom(p, 1);
  }
}
