/** The text of a lock file, and when a lock may be taken over. */
module BusyLock {
  import opened Prelude
  import opened Text
  import opened Numerals

  const U32_MAX: nat := 0xFFFF_FFFF

  /** What a process tells about itself when it locks a session. The start time is unknown outside Linux. */
  datatype Holder = Holder(pid: nat, start: Option<nat>, now: nat) {
    predicate Valid() {
      pid <= U32_MAX && now <= U64_MAX && (start.Some? ==> start.value <= U64_MAX)
    }
  }

  /** The start time of each process that runs and can be inspected. */
  type Processes = nat -> Option<nat>

  // ---------- numbers ----------

  /** `str::parse` for an unsigned type. */
  function ParseUnsigned(s: string, max: nat): Option<nat> {
    var digits := if s != "" && s[0] == '+' then s[1..] else s;
    if digits == "" || !AllDigits(digits) then None
    else
      var n := DigitsValue(digits);
      if n <= max then Some(n) else None
  }

  lemma NumberParses(n: nat, max: nat)
    requires n <= max
    ensures ParseUnsigned(Decimal(n), max) == Some(n)
  {
    DecimalShows(n);
    assert Decimal(n)[0] in Decimal(n);
  }

  // ---------- the text ----------

  const PID := "pid="
  const START := "start_time="
  const STAMP := "ts="

  function Token(key: string, n: nat): string {
    key + Decimal(n)
  }

  function Format(h: Holder): string {
    match h.start
    case None => TwoTokens(Token(PID, h.pid), Token(STAMP, h.now))
    case Some(start) => ThreeTokens(Token(PID, h.pid), Token(START, start), Token(STAMP, h.now))
  }

  function TwoTokens(a: string, b: string): string {
    a + ([' '] + (b + ['\n']))
  }

  function ThreeTokens(a: string, b: string, c: string): string {
    a + ([' '] + TwoTokens(b, c))
  }

  /** The first token with this key whose number can be read. */
  function FindNumber(tokens: seq<string>, key: string, max: nat): Option<nat> {
    if tokens == [] then None
    else
      var here := if key <= tokens[0] then ParseUnsigned(tokens[0][|key|..], max) else None;
      if here.Some? then here else FindNumber(tokens[1..], key, max)
  }

  function ParsePid(raw: string): Option<nat> {
    FindNumber(SplitWhitespace(raw), PID, U32_MAX)
  }

  function ParseStart(raw: string): Option<nat> {
    FindNumber(SplitWhitespace(raw), START, U64_MAX)
  }

  predicate NoSpace(t: string) {
    forall c | c in t :: !IsWhitespace(c)
  }

  lemma {:induction false} TokenEnds(t: string, c: char, rest: string)
    requires NoSpace(t) && IsWhitespace(c)
    ensures TokenLength(t + ([c] + rest)) == |t|
  {
    if t != "" {
      assert t[0] in t && NoSpace(t[1..]);
      assert (t + ([c] + rest))[1..] == t[1..] + ([c] + rest);
      TokenEnds(t[1..], c, rest);
    }
  }

  lemma SplitToken(t: string, c: char, rest: string)
    requires t != "" && NoSpace(t) && IsWhitespace(c)
    ensures SplitWhitespace(t + ([c] + rest)) == [t] + SplitWhitespace(rest)
  {
    var s := t + ([c] + rest);
    assert t[0] in t && TrimStart(s) == s;
    TokenEnds(t, c, rest);
    assert s[..|t|] == t && s[|t|..] == [c] + rest && ([c] + rest)[1..] == rest;
    assert TrimStart([c] + rest) == TrimStart(rest);
  }

  lemma TokenHasNoSpace(key: string, n: nat)
    requires NoSpace(key)
    ensures NoSpace(Token(key, n)) && Token(key, n) != ""
  {
    DecimalShows(n);
    forall c | c in Token(key, n)
      ensures !IsWhitespace(c)
    {
      if c in Decimal(n) { assert '0' <= c <= '9'; }
    }
  }

  lemma KeysHaveNoSpace()
    ensures NoSpace(PID) && NoSpace(START) && NoSpace(STAMP)
  {
  }

  /** The tokens of the text that a process writes. */
  function Tokens(h: Holder): seq<string> {
    [Token(PID, h.pid)] + (match h.start case None => [] case Some(start) => [Token(START, start)])
    + [Token(STAMP, h.now)]
  }

  lemma TwoTokensSplit(a: string, b: string)
    requires a != "" && NoSpace(a) && b != "" && NoSpace(b)
    ensures SplitWhitespace(TwoTokens(a, b)) == [a, b]
  {
    SplitToken(b, '\n', "");
    assert ['\n'] + "" == ['\n'] && SplitWhitespace("") == [];
    SplitToken(a, ' ', b + ['\n']);
  }

  lemma FormatSplits(h: Holder)
    ensures SplitWhitespace(Format(h)) == Tokens(h)
  {
    KeysHaveNoSpace();
    TokenHasNoSpace(PID, h.pid);
    TokenHasNoSpace(STAMP, h.now);
    var pid, stamp := Token(PID, h.pid), Token(STAMP, h.now);
    match h.start {
      case None => TwoTokensSplit(pid, stamp);
      case Some(start) =>
        TokenHasNoSpace(START, start);
        TwoTokensSplit(Token(START, start), stamp);
        SplitToken(pid, ' ', TwoTokens(Token(START, start), stamp));
    }
  }

  lemma TokenReads(key: string, n: nat, max: nat, more: seq<string>)
    requires n <= max
    ensures FindNumber([Token(key, n)] + more, key, max) == Some(n)
  {
    NumberParses(n, max);
    assert Token(key, n)[|key|..] == Decimal(n);
  }

  lemma OtherToken(key: string, other: string, n: nat, max: nat, more: seq<string>)
    requires key != "" && other != "" && key[0] != other[0]
    ensures FindNumber([Token(other, n)] + more, key, max) == FindNumber(more, key, max)
  {
    assert Token(other, n)[0] == other[0] && ([Token(other, n)] + more)[1..] == more;
  }

  lemma KeysDiffer()
    ensures PID != "" && START != "" && STAMP != "" && PID[0] != START[0]
    ensures |START| > 2 && |STAMP| > 2 && START[0] != STAMP[0]
  {
  }

  /** The identity of the process is read back as it was written. */
  lemma FormatReadsBack(h: Holder)
    requires h.Valid()
    ensures ParsePid(Format(h)) == Some(h.pid) && ParseStart(Format(h)) == h.start
  {
    FormatSplits(h);
    KeysDiffer();
    var rest := (match h.start case None => [] case Some(start) => [Token(START, start)]) + [Token(STAMP, h.now)];
    assert Tokens(h) == [Token(PID, h.pid)] + rest;
    TokenReads(PID, h.pid, U32_MAX, rest);
    OtherToken(START, PID, h.pid, U64_MAX, rest);
    match h.start {
      case None =>
        assert rest == [Token(STAMP, h.now)] + [];
        OtherToken(START, STAMP, h.now, U64_MAX, []);
      case Some(start) =>
        TokenReads(START, start, U64_MAX, [Token(STAMP, h.now)]);
    }
  }

  // ---------- taking over ----------

  /** `busy_sentinel_is_recoverable`; a file that cannot be read is `None`. */
  function Recoverable(raw: Option<string>, requireWellformed: bool, running: Processes): bool {
    match raw
    case None => !requireWellformed
    case Some(text) =>
      match ParsePid(text)
      case None => !requireWellformed
      case Some(pid) =>
        match running(pid)
        case None => true
        case Some(current) =>
          match ParseStart(text)
          case None => false
          case Some(recorded) => recorded != current
  }

  /** A lock that some process wrote may be taken over exactly if this process is gone or its number was reused. */
  lemma WrittenLockIsStaleExactlyWhen(h: Holder, requireWellformed: bool, running: Processes)
    requires h.Valid()
    ensures Recoverable(Some(Format(h)), requireWellformed, running)
      <==> running(h.pid).None? || (h.start.Some? && running(h.pid) != h.start)
  {
    FormatReadsBack(h);
  }

  /** A process is safe from its own locks exactly if its start time can be read. Elsewhere every lock is stale. */
  lemma OwnLockHoldsExactlyWhen(h: Holder, running: Processes)
    requires h.Valid() && running(h.pid) == h.start
    ensures !Recoverable(Some(Format(h)), true, running) <==> h.start.Some?
  {
    WrittenLockIsStaleExactlyWhen(h, true, running);
  }

  /** The policy at the start of the program takes over what the one during a run leaves alone: malformed locks. */
  lemma StartRecoversMore(raw: Option<string>, running: Processes)
    ensures Recoverable(raw, false, running)
      <==> Recoverable(raw, true, running) || raw.None? || ParsePid(raw.value).None?
  {
  }
}
