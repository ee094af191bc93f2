/**
 * JSON values: the compact printer and the parser behind the tool envelopes (RFC 8259; numbers by its section 6,
 * strings by its section 7). As in serde_json, the parser gives up below 127 levels of nesting, and a number is an
 * integer where 64 bits hold it and otherwise a floating-point number, which must not be too large. A
 * floating-point number is kept as it was written.
 */
module Json {
  import opened Prelude
  import opened Text
  import opened Numerals

  /** A number as it is written: the fraction without its point, the exponent with all its signs. */
  datatype Number = Number(negative: bool, whole: string, fraction: string, exponent: Exponent)

  datatype Exponent = NoExponent | Exponent(mark: char, sign: string, digits: string)

  datatype Json =
    | JNull
    | JBool(b: bool)
    | JNumber(n: int)
    | JFloat(number: Number)
    | JString(s: string)
    | JArray(items: seq<Json>)
    | JObject(fields: seq<Field>)

  datatype Field = Field(key: string, value: Json)

  const MAX_DEPTH: nat := 128
  const I64_MIN: int := -0x8000_0000_0000_0000

  // ---------- printing ----------

  function HexDigit(n: nat): char
    requires n < 16
  {
    if n < 10 then '0' + (n as char) else 'a' + ((n - 10) as char)
  }

  function EscapeChar(c: char): string {
    var n := c as int;
    if c == '"' then "\\\""
    else if c == '\\' then "\\\\"
    else if n == 8 then "\\b"
    else if n == 12 then "\\f"
    else if n == 10 then "\\n"
    else if n == 13 then "\\r"
    else if n == 9 then "\\t"
    else if n < 0x20 then "\\u00" + [HexDigit(n / 16), HexDigit(n % 16)]
    else [c]
  }

  /** A string, from its opening quote on, in front of the text that follows it. */
  function WriteString(s: string, rest: string): string {
    ['"'] + WriteChars(s, rest)
  }

  function WriteChars(s: string, rest: string): string {
    if s == "" then ['"'] + rest else EscapeChar(s[0]) + WriteChars(s[1..], rest)
  }

  function WriteExponent(e: Exponent, rest: string): string {
    match e
    case NoExponent => rest
    case Exponent(mark, sign, digits) => [mark] + (sign + (digits + rest))
  }

  function WriteFraction(digits: string, rest: string): string {
    if digits == "" then rest else ['.'] + (digits + rest)
  }

  function WriteNumber(x: Number, rest: string): string {
    var t := x.whole + WriteFraction(x.fraction, WriteExponent(x.exponent, rest));
    if x.negative then ['-'] + t else t
  }

  /** How an integer is written. */
  function IntegerNumber(n: int): Number {
    Number(n < 0, Decimal(if n < 0 then -n else n), "", NoExponent)
  }

  /** The compact form of a value, in front of the text that follows it. */
  function Write(v: Json, rest: string): string
    decreases v, 0
  {
    match v
    case JNull => "null" + rest
    case JBool(b) => (if b then "true" else "false") + rest
    case JNumber(n) => WriteNumber(IntegerNumber(n), rest)
    case JFloat(x) => WriteNumber(x, rest)
    case JString(s) => WriteString(s, rest)
    case JArray(items) => ['['] + WriteItems(items, rest)
    case JObject(fields) => ['{'] + WriteFields(fields, rest)
  }

  function WriteItems(items: seq<Json>, rest: string): string
    decreases items, 1
  {
    if items == [] then [']'] + rest
    else Write(items[0], if |items| == 1 then [']'] + rest else [','] + WriteItems(items[1..], rest))
  }

  function WriteFields(fields: seq<Field>, rest: string): string
    decreases fields, 1
  {
    if fields == [] then ['}'] + rest
    else
      var f := fields[0];
      WriteString(f.key,
        [':'] + Write(f.value, if |fields| == 1 then ['}'] + rest else [','] + WriteFields(fields[1..], rest)))
  }

  function Print(v: Json): string {
    Write(v, "")
  }

  // ---------- parsing ----------

  predicate IsJsonSpace(c: char) {
    c == ' ' || c == '\t' || c == '\n' || c == '\r'
  }

  function SkipSpace(s: string): (rest: string)
    ensures |rest| <= |s|
    ensures rest != "" ==> !IsJsonSpace(rest[0])
  {
    if s != "" && IsJsonSpace(s[0]) then SkipSpace(s[1..]) else s
  }

  function HexValue(c: char): Option<nat> {
    if '0' <= c <= '9' then Some((c - '0') as nat)
    else if 'a' <= c <= 'f' then Some((c - 'a') as nat + 10)
    else if 'A' <= c <= 'F' then Some((c - 'A') as nat + 10)
    else None
  }

  /** Four hexadecimal digits. */
  function Hex4(s: string): (r: Option<nat>)
    ensures r.Some? ==> |s| >= 4 && r.value < 0x1_0000
  {
    if |s| < 4 then None
    else match (HexValue(s[0]), HexValue(s[1]), HexValue(s[2]), HexValue(s[3]))
      case (Some(a), Some(b), Some(c), Some(d)) =>
        if a < 16 && b < 16 && c < 16 && d < 16 then Some(a * 4096 + b * 256 + c * 16 + d) else None
      case _ => None
  }

  datatype Parsed<T> = Parsed(value: T, rest: string)

  /** One escape sequence, after its backslash. */
  function ParseEscape(s: string): (r: Option<Parsed<char>>)
    ensures r.Some? ==> |r.value.rest| < |s|
  {
    if s == "" then None
    else match s[0]
      case '"' => Some(Parsed('"', s[1..]))
      case '\\' => Some(Parsed('\\', s[1..]))
      case '/' => Some(Parsed('/', s[1..]))
      case 'b' => Some(Parsed(8 as char, s[1..]))
      case 'f' => Some(Parsed(12 as char, s[1..]))
      case 'n' => Some(Parsed('\n', s[1..]))
      case 'r' => Some(Parsed('\r', s[1..]))
      case 't' => Some(Parsed('\t', s[1..]))
      case 'u' => ParseUnicode(s[1..])
      case _ => None
  }

  /** `XXXX`, or a surrogate pair `XXXX\uXXXX`. */
  function ParseUnicode(s: string): (r: Option<Parsed<char>>)
    ensures r.Some? ==> |r.value.rest| <= |s|
  {
    match Hex4(s)
    case None => None
    case Some(hi) =>
      if hi < 0xD800 || 0xE000 <= hi then Some(Parsed(hi as char, s[4..]))
      else if hi < 0xDC00 && |s| >= 6 && s[4] == '\\' && s[5] == 'u' then
        match Hex4(s[6..])
        case None => None
        case Some(lo) =>
          if 0xDC00 <= lo < 0xE000
          then Some(Parsed((0x1_0000 + (hi - 0xD800) * 0x400 + (lo - 0xDC00)) as char, s[10..]))
          else None
      else None
  }

  /** The inside of a string, after its opening quote. */
  function ParseChars(s: string): (r: Option<Parsed<string>>)
    ensures r.Some? ==> |r.value.rest| < |s|
    decreases |s|
  {
    if s == "" then None
    else if s[0] == '"' then Some(Parsed("", s[1..]))
    else if s[0] == '\\' then
      match ParseEscape(s[1..])
      case None => None
      case Some(e) => PrependChar(e.value, ParseChars(e.rest))
    else if (s[0] as int) < 0x20 then None
    else PrependChar(s[0], ParseChars(s[1..]))
  }

  function PrependChar(c: char, tail: Option<Parsed<string>>): Option<Parsed<string>> {
    match tail
    case None => None
    case Some(p) => Some(Parsed([c] + p.value, p.rest))
  }

  /** The number grammar of RFC 8259. */
  predicate WellWritten(x: Number) {
    && x.whole != "" && AllDigits(x.whole) && (x.whole[0] == '0' ==> |x.whole| == 1)
    && AllDigits(x.fraction) && ExponentWellWritten(x.exponent)
  }

  predicate ExponentWellWritten(e: Exponent) {
    match e
    case NoExponent => true
    case Exponent(mark, sign, digits) =>
      && (mark == 'e' || mark == 'E') && (sign == "" || sign == "+" || sign == "-")
      && digits != "" && AllDigits(digits)
  }

  /** The digits after a decimal point, if there is one. */
  function ScanFraction(s: string): (r: Option<Parsed<string>>)
    ensures r.Some? ==> AllDigits(r.value.value) && |r.value.rest| <= |s|
  {
    if s == "" || s[0] != '.' then Some(Parsed("", s))
    else
      var (digits, rest) := SpanDigits(s[1..]);
      if digits == "" then None else Some(Parsed(digits, rest))
  }

  function ScanExponent(s: string): (r: Option<Parsed<Exponent>>)
    ensures r.Some? ==> ExponentWellWritten(r.value.value) && |r.value.rest| <= |s|
  {
    if s == "" || !(s[0] == 'e' || s[0] == 'E') then Some(Parsed(NoExponent, s))
    else
      var sign := if |s| > 1 && (s[1] == '+' || s[1] == '-') then [s[1]] else "";
      var (digits, rest) := SpanDigits(s[1 + |sign|..]);
      if digits == "" then None else Some(Parsed(Exponent(s[0], sign, digits), rest))
  }

  function ScanNumber(s: string): (r: Option<Parsed<Number>>)
    ensures r.Some? ==> WellWritten(r.value.value) && |r.value.rest| < |s|
  {
    var negative := s != "" && s[0] == '-';
    var (whole, t) := SpanDigits(if negative then s[1..] else s);
    if whole == "" || (whole[0] == '0' && |whole| > 1) then None
    else match ScanFraction(t)
      case None => None
      case Some(f) =>
        match ScanExponent(f.rest)
        case None => None
        case Some(e) => Some(Parsed(Number(negative, whole, f.value, e.value), e.rest))
  }

  function Power(base: nat, exponent: nat): nat {
    if exponent == 0 then 1 else base * Power(base, exponent - 1)
  }

  /** 2^1024 - 2^970: from here on a number is rounded to infinity. */
  const FLOAT_LIMIT: nat := 0x3F_FFFF_FFFF_FFFF * Power(TWO_TO_97, 10)
  const TWO_TO_97: nat := 0x2_0000_0000_0000_0000_0000_0000

  function ExponentValue(e: Exponent): int
    requires ExponentWellWritten(e)
  {
    match e
    case NoExponent => 0
    case Exponent(_, sign, digits) =>
      var n: int := DigitsValue(digits);
      if sign == "-" then -n else n
  }

  /** `m * 10^e` is below the limit. */
  predicate Below(m: nat, e: int, limit: nat) {
    if e >= 0 then m * Power(10, e) < limit else m < limit * Power(10, -e)
  }

  predicate Finite(x: Number)
    requires WellWritten(x)
  {
    Below(DigitsValue(x.whole + x.fraction), ExponentValue(x.exponent) - |x.fraction|, FLOAT_LIMIT)
  }

  /** Neither fraction nor exponent, not a negative zero, and within 64 bits. */
  predicate IsInteger(x: Number)
    requires WellWritten(x)
  {
    var n := DigitsValue(x.whole);
    && x.fraction == "" && x.exponent.NoExponent?
    && if x.negative then 0 < n <= -I64_MIN else n <= U64_MAX
  }

  /** The value of a number, unless it is out of range. */
  function NumberValue(x: Number): Option<Json>
    requires WellWritten(x)
  {
    var n: int := DigitsValue(x.whole);
    if IsInteger(x) then Some(JNumber(if x.negative then -n else n))
    else if Finite(x) then Some(JFloat(x))
    else None
  }

  function ParseNumber(s: string): (r: Option<Parsed<Json>>)
    ensures r.Some? ==> |r.value.rest| < |s|
  {
    match ScanNumber(s)
    case None => None
    case Some(x) => NumberValue(x.value).Map((v: Json) => Parsed(v, x.rest))
  }

  function ParseScalar(s: string): (r: Option<Parsed<Json>>)
    requires s != ""
    ensures r.Some? ==> |r.value.rest| < |s|
  {
    match s[0]
    case 'n' => ParseWord(s, "null", JNull)
    case 't' => ParseWord(s, "true", JBool(true))
    case 'f' => ParseWord(s, "false", JBool(false))
    case '"' => ParseChars(s[1..]).Map((p: Parsed<string>) => Parsed(JString(p.value), p.rest))
    case _ => ParseNumber(s)
  }

  function ParseValue(text: string, depth: nat): (r: Option<Parsed<Json>>)
    ensures r.Some? ==> |r.value.rest| < |text|
    decreases |text|, 0
  {
    var s := SkipSpace(text);
    if s == "" then None
    else match s[0]
      case '[' => if depth <= 1 then None else ParseArray(s[1..], depth - 1)
      case '{' => if depth <= 1 then None else ParseObject(s[1..], depth - 1)
      case _ => ParseScalar(s)
  }

  function ParseWord(s: string, word: string, v: Json): (r: Option<Parsed<Json>>)
    requires word != ""
    ensures r.Some? ==> |r.value.rest| < |s|
  {
    if word <= s then Some(Parsed(v, s[|word|..])) else None
  }

  /** An array, after its opening bracket. */
  function ParseArray(text: string, depth: nat): (r: Option<Parsed<Json>>)
    ensures r.Some? ==> |r.value.rest| < |text|
    decreases |text|, 2
  {
    var t := SkipSpace(text);
    if t != "" && t[0] == ']' then Some(Parsed(JArray([]), t[1..]))
    else match ParseItems(t, depth)
      case None => None
      case Some(p) => Some(Parsed(JArray(p.value), p.rest))
  }

  /** An object, after its opening brace. */
  function ParseObject(text: string, depth: nat): (r: Option<Parsed<Json>>)
    ensures r.Some? ==> |r.value.rest| < |text|
    decreases |text|, 2
  {
    var t := SkipSpace(text);
    if t != "" && t[0] == '}' then Some(Parsed(JObject([]), t[1..]))
    else match ParseFields(t, depth, [])
      case None => None
      case Some(p) => Some(Parsed(JObject(p.value), p.rest))
  }

  /** One or more array items and the closing bracket. */
  function ParseItems(text: string, depth: nat): (r: Option<Parsed<seq<Json>>>)
    ensures r.Some? ==> |r.value.rest| < |text|
    decreases |text|, 1
  {
    match ParseValue(text, depth)
    case None => None
    case Some(first) =>
      var t := SkipSpace(first.rest);
      if t == "" then None
      else if t[0] == ']' then Some(Parsed([first.value], t[1..]))
      else if t[0] == ',' then
        match ParseItems(t[1..], depth)
        case None => None
        case Some(more) => Some(Parsed([first.value] + more.value, more.rest))
      else None
  }

  /** Inserts a field; a repeated key keeps its place and takes the new value. */
  function Insert(fields: seq<Field>, key: string, value: Json): seq<Field> {
    if fields == [] then [Field(key, value)]
    else if fields[0].key == key then [Field(key, value)] + fields[1..]
    else [fields[0]] + Insert(fields[1..], key, value)
  }

  /** One or more `key: value` fields and the closing brace, added to those read so far. */
  function ParseFields(text: string, depth: nat, before: seq<Field>): (r: Option<Parsed<seq<Field>>>)
    ensures r.Some? ==> |r.value.rest| < |text|
    decreases |text|, 1
  {
    var s := SkipSpace(text);
    if s == "" || s[0] != '"' then None
    else match ParseChars(s[1..])
      case None => None
      case Some(key) =>
        var afterKey := SkipSpace(key.rest);
        if afterKey == "" || afterKey[0] != ':' then None
        else match ParseValue(afterKey[1..], depth)
          case None => None
          case Some(v) =>
            var fields := Insert(before, key.value, v.value);
            var t := SkipSpace(v.rest);
            if t == "" then None
            else if t[0] == '}' then Some(Parsed(fields, t[1..]))
            else if t[0] == ',' then ParseFields(t[1..], depth, fields)
            else None
  }

  /** `serde_json::from_str`: one value and nothing but space after it. */
  function Parse(text: string): Option<Json> {
    match ParseValue(text, MAX_DEPTH)
    case None => None
    case Some(p) => if SkipSpace(p.rest) == "" then Some(p.value) else None
  }

  // ---------- values the printer is used on ----------

  predicate DistinctKeys(fields: seq<Field>) {
    forall i, j | 0 <= i < j < |fields| :: fields[i].key != fields[j].key
  }

  /** A value as the library holds it: integers within 64 bits, other numbers finite, no repeated key. */
  predicate WellFormed(v: Json) {
    match v
    case JNumber(n) => I64_MIN <= n <= U64_MAX
    case JFloat(x) => WellWritten(x) && !IsInteger(x) && Finite(x)
    case JArray(items) => forall i | 0 <= i < |items| :: WellFormed(items[i])
    case JObject(fields) => DistinctKeys(fields) && forall i | 0 <= i < |fields| :: WellFormed(fields[i].value)
    case _ => true
  }

  /** Nesting of arrays and objects stays below the limit. */
  predicate Within(v: Json, depth: nat) {
    match v
    case JArray(items) => depth > 1 && forall i | 0 <= i < |items| :: Within(items[i], depth - 1)
    case JObject(fields) => depth > 1 && forall i | 0 <= i < |fields| :: Within(fields[i].value, depth - 1)
    case _ => true
  }

  function Get(v: Json, key: string): Option<Json> {
    match v
    case JObject(fields) => FieldValue(fields, key)
    case _ => None
  }

  function FieldValue(fields: seq<Field>, key: string): Option<Json> {
    if fields == [] then None
    else if fields[0].key == key then Some(fields[0].value)
    else FieldValue(fields[1..], key)
  }

  lemma {:induction false} FieldAt(fields: seq<Field>, i: nat)
    requires DistinctKeys(fields) && i < |fields|
    ensures FieldValue(fields, fields[i].key) == Some(fields[i].value)
  {
    if i > 0 {
      assert fields[1..][i - 1] == fields[i];
      FieldAt(fields[1..], i - 1);
    }
  }

  function AsString(v: Option<Json>): Option<string> {
    match v
    case Some(JString(s)) => Some(s)
    case _ => None
  }

  // ---------- round trip ----------

  /** What may follow a printed value. */
  predicate Delimited(rest: string) {
    rest == "" || rest[0] == ',' || rest[0] == ']' || rest[0] == '}'
  }

  lemma EscapedCharParses(c: char, rest: string)
    ensures var e := EscapeChar(c) + rest;
      if e[0] == '\\' then ParseEscape(e[1..]) == Some(Parsed(c, rest))
      else e == [c] + rest && c != '"' && c as int >= 0x20
  {
    var n := c as int;
    var e := EscapeChar(c) + rest;
    if e[0] == '\\' {
      if |EscapeChar(c)| == 2 {
        assert e[1..] == [EscapeChar(c)[1]] + rest;
        assert e[1..][1..] == rest;
      } else {
        var hex := ['0', '0', HexDigit(n / 16), HexDigit(n % 16)];
        assert e[1..] == ['u'] + hex + rest;
        assert e[1..][1..] == hex + rest;
        assert (hex + rest)[4..] == rest;
        assert Hex4(hex + rest) == Some(n);
      }
    }
  }

  lemma {:induction false} CharsParse(s: string, rest: string)
    ensures ParseChars(WriteChars(s, rest)) == Some(Parsed(s, rest))
  {
    if s == "" {
      assert (['"'] + rest)[1..] == rest;
    } else {
      CharsParse(s[1..], rest);
      EscapedCharParses(s[0], WriteChars(s[1..], rest));
      assert s == [s[0]] + s[1..];
    }
  }

  function Hex(n: nat): string
    requires n < 0x1_0000
  {
    [HexDigit(n / 0x1000), HexDigit(n / 0x100 % 16), HexDigit(n / 16 % 16), HexDigit(n % 16)]
  }

  /** The escape of a character by its number; above 0xFFFF as a pair (section 7 of RFC 8259). */
  function UnicodeEscape(c: char): string {
    var n := c as int;
    if n < 0x1_0000 then "\\u" + Hex(n)
    else "\\u" + Hex(0xD800 + (n - 0x1_0000) / 0x400) + ("\\u" + Hex(0xDC00 + (n - 0x1_0000) % 0x400))
  }

  lemma HexParts(n: nat)
    requires n < 0x1_0000
    ensures n / 0x1000 * 0x1000 + n / 0x100 % 16 * 0x100 + n / 16 % 16 * 16 + n % 16 == n && n / 0x1000 < 16
  {
    assert n / 0x100 == n / 16 / 16 && n / 0x1000 == n / 16 / 16 / 16;
  }

  lemma DigitsRead(a: nat, b: nat, c: nat, d: nat, s: string)
    requires a < 16 && b < 16 && c < 16 && d < 16 && |s| >= 4
    requires HexValue(s[0]) == Some(a) && HexValue(s[1]) == Some(b) && HexValue(s[2]) == Some(c)
    requires HexValue(s[3]) == Some(d)
    ensures Hex4(s) == Some(a * 0x1000 + b * 0x100 + c * 16 + d)
  {
    hide HexValue;
  }

  lemma HexReads(n: nat, rest: string)
    requires n < 0x1_0000
    ensures Hex4(Hex(n) + rest) == Some(n) && (Hex(n) + rest)[4..] == rest
  {
    hide HexValue, HexDigit, Hex4;
    HexDigitReads(n / 0x1000);
    HexDigitReads(n / 0x100 % 16);
    HexDigitReads(n / 16 % 16);
    HexDigitReads(n % 16);
    HexParts(n);
    DigitsRead(n / 0x1000, n / 0x100 % 16, n / 16 % 16, n % 16, Hex(n) + rest);
  }

  lemma HexDigitReads(d: nat)
    requires d < 16
    ensures HexValue(HexDigit(d)) == Some(d)
  {
  }

  lemma UnicodeReads(n: nat, s: string, rest: string)
    requires n < 0x1_0000 && !(0xD800 <= n < 0xE000) && s == Hex(n) + rest
    ensures ParseUnicode(s) == Some(Parsed(n as char, rest))
  {
    hide Hex, Hex4;
    HexReads(n, rest);
  }

  lemma PairReads(hi: nat, lo: nat, s: string, rest: string)
    requires 0xD800 <= hi < 0xDC00 <= lo < 0xE000 && s == Hex(hi) + ("\\u" + (Hex(lo) + rest))
    ensures ParseUnicode(s) == Some(Parsed((0x1_0000 + (hi - 0xD800) * 0x400 + (lo - 0xDC00)) as char, rest))
  {
    hide Hex4;
    HexReads(hi, "\\u" + (Hex(lo) + rest));
    HexReads(lo, rest);
    assert s[6..] == Hex(lo) + rest && s[10..] == rest;
  }

  lemma Halves(n: nat)
    requires 0x1_0000 <= n < 0x11_0000
    ensures var hi, lo := 0xD800 + (n - 0x1_0000) / 0x400, 0xDC00 + (n - 0x1_0000) % 0x400;
      hi < 0xDC00 && lo < 0xE000 && 0x1_0000 + (hi - 0xD800) * 0x400 + (lo - 0xDC00) == n
  {
  }

  /** Every character may be written by its number. */
  lemma UnicodeEscapeReads(c: char, rest: string)
    ensures var e := UnicodeEscape(c) + rest;
      e[0] == '\\' && ParseEscape(e[1..]) == Some(Parsed(c, rest))
  {
    hide Hex, ParseUnicode;
    var n := c as int;
    var e := UnicodeEscape(c) + rest;
    if n < 0x1_0000 {
      assert e[1..] == ['u'] + (Hex(n) + rest) && e[1..][1..] == Hex(n) + rest;
      UnicodeReads(n, e[1..][1..], rest);
    } else {
      var hi, lo := 0xD800 + (n - 0x1_0000) / 0x400, 0xDC00 + (n - 0x1_0000) % 0x400;
      Halves(n);
      assert e[1..][1..] == Hex(hi) + ("\\u" + (Hex(lo) + rest));
      PairReads(hi, lo, e[1..][1..], rest);
    }
  }

  /** What may follow a number. */
  predicate EndsNumber(rest: string) {
    rest == "" || !(IsDigit(rest[0]) || rest[0] == '.' || rest[0] == 'e' || rest[0] == 'E')
  }

  lemma FractionScans(digits: string, rest: string)
    requires AllDigits(digits) && (rest == "" || !(IsDigit(rest[0]) || rest[0] == '.'))
    ensures ScanFraction(WriteFraction(digits, rest)) == Some(Parsed(digits, rest))
  {
    if digits != "" {
      assert (['.'] + (digits + rest))[1..] == digits + rest;
      DigitsSpan(digits, rest);
    }
  }

  lemma ExponentScans(e: Exponent, rest: string)
    requires ExponentWellWritten(e) && EndsNumber(rest)
    ensures ScanExponent(WriteExponent(e, rest)) == Some(Parsed(e, rest))
  {
    match e {
      case NoExponent =>
      case Exponent(mark, sign, digits) =>
        var t := digits + rest;
        DigitsSpan(digits, rest);
        assert digits[0] in digits && t[0] == digits[0];
        SignStripped(mark, sign, t);
    }
  }

  lemma SignStripped(mark: char, sign: string, t: string)
    requires t != "" && IsDigit(t[0]) && |sign| <= 1 && (sign != "" ==> sign[0] == '+' || sign[0] == '-')
    ensures var s := [mark] + (sign + t);
      && s[1 + |sign|..] == t && s[0] == mark && |s| > 1
      && (s[1] == '+' || s[1] == '-' <==> sign != "") && (sign != "" ==> [s[1]] == sign)
  {
    var s := [mark] + (sign + t);
    assert s[1..] == sign + t;
  }

  /** A number is read back to its end exactly as it was written. */
  lemma NumberScans(x: Number, rest: string)
    requires WellWritten(x) && EndsNumber(rest)
    ensures ScanNumber(WriteNumber(x, rest)) == Some(Parsed(x, rest))
  {
    var t := WriteExponent(x.exponent, rest);
    var u := WriteFraction(x.fraction, t);
    ExponentScans(x.exponent, rest);
    FractionScans(x.fraction, t);
    DigitsSpan(x.whole, u);
    assert x.whole[0] in x.whole && (x.whole + u)[0] == x.whole[0];
    assert (['-'] + (x.whole + u))[1..] == x.whole + u;
  }

  lemma IntegerIsWritten(n: int)
    ensures WellWritten(IntegerNumber(n))
    ensures I64_MIN <= n <= U64_MAX ==> NumberValue(IntegerNumber(n)) == Some(JNumber(n))
  {
    DecimalShows(if n < 0 then -n else n);
  }

  /** The number a scalar is printed as. */
  function NumberOf(v: Json): Number
    requires v.JNumber? || v.JFloat?
  {
    if v.JNumber? then IntegerNumber(v.n) else v.number
  }

  lemma NumberParses(v: Json, rest: string)
    requires (v.JNumber? || v.JFloat?) && WellFormed(v) && Delimited(rest)
    ensures WellWritten(NumberOf(v)) && Write(v, rest) == WriteNumber(NumberOf(v), rest)
    ensures ParseNumber(Write(v, rest)) == Some(Parsed(v, rest))
  {
    if v.JNumber? { IntegerIsWritten(v.n); }
    NumberScans(NumberOf(v), rest);
  }

  /** A number begins with its sign or a digit. */
  lemma NumberStarts(x: Number, rest: string)
    requires WellWritten(x)
    ensures var t := WriteNumber(x, rest);
      t != "" && (t[0] == '-' || IsDigit(t[0]))
  {
    assert x.whole[0] in x.whole;
  }

  lemma NothingToSkip(s: string)
    requires s != "" && !IsJsonSpace(s[0])
    ensures SkipSpace(s) == s
  {
  }

  lemma WriteStarts(v: Json, rest: string)
    requires WellFormed(v)
    ensures var t := Write(v, rest);
      t != "" && !IsJsonSpace(t[0]) && t[0] != ']' && t[0] != '}'
  {
    match v {
      case JNumber(n) =>
        IntegerIsWritten(n);
        NumberStarts(IntegerNumber(n), rest);
      case JFloat(x) =>
        NumberStarts(x, rest);
      case _ =>
    }
  }

  /** The first character decides which reader is used. */
  lemma Dispatch(c: char, t: string, depth: nat)
    requires c == '"' || c == '[' || c == '{'
    ensures ParseValue([c] + t, depth) ==
      if c == '"' then ParseChars(t).Map((p: Parsed<string>) => Parsed(JString(p.value), p.rest))
      else if depth <= 1 then None
      else if c == '[' then ParseArray(t, depth - 1)
      else ParseObject(t, depth - 1)
  {
    NothingToSkip([c] + t);
    assert ([c] + t)[1..] == t;
  }

  lemma DispatchNumber(s: string, depth: nat)
    requires s != "" && (s[0] == '-' || IsDigit(s[0]))
    ensures ParseValue(s, depth) == ParseNumber(s)
  {
    NothingToSkip(s);
  }

  lemma WordParses(v: Json, rest: string, depth: nat)
    requires v.JNull? || v.JBool?
    ensures ParseValue(Write(v, rest), depth) == Some(Parsed(v, rest))
  {
    NothingToSkip(Write(v, rest));
  }

  lemma ScalarParses(v: Json, rest: string, depth: nat)
    requires v.JNull? || v.JBool? || v.JNumber? || v.JFloat?
    requires WellFormed(v) && Delimited(rest)
    ensures ParseValue(Write(v, rest), depth) == Some(Parsed(v, rest))
  {
    if v.JNumber? || v.JFloat? {
      NumberParses(v, rest);
      NumberStarts(NumberOf(v), rest);
      DispatchNumber(Write(v, rest), depth);
    } else {
      WordParses(v, rest, depth);
    }
  }

  predicate AllWithin(items: seq<Json>, depth: nat) {
    forall i | 0 <= i < |items| :: Within(items[i], depth)
  }

  predicate FieldsWithin(fields: seq<Field>, depth: nat) {
    forall i | 0 <= i < |fields| :: Within(fields[i].value, depth)
  }

  /** Printing is inverted by parsing, whatever follows the value, exactly within the nesting limit. */
  lemma {:induction false} WriteParses(v: Json, rest: string, depth: nat)
    requires WellFormed(v) && Delimited(rest)
    ensures ParseValue(Write(v, rest), depth) == if Within(v, depth) then Some(Parsed(v, rest)) else None
    decreases v, 0
  {
    match v {
      case JString(s) =>
        Dispatch('"', WriteChars(s, rest), depth);
        CharsParse(s, rest);
      case JArray(items) =>
        ArrayParses(items, rest, depth);
      case JObject(fields) =>
        ObjectParses(fields, rest, depth);
      case _ =>
        ScalarParses(v, rest, depth);
    }
  }

  lemma {:induction false} ArrayParses(items: seq<Json>, rest: string, depth: nat)
    requires WellFormed(JArray(items))
    ensures ParseValue(Write(JArray(items), rest), depth)
         == if depth > 1 && AllWithin(items, depth - 1) then Some(Parsed(JArray(items), rest)) else None
    decreases items, 2
  {
    Dispatch('[', WriteItems(items, rest), depth);
    if depth > 1 { ItemsParse(items, rest, depth - 1); }
  }

  lemma {:induction false} ObjectParses(fields: seq<Field>, rest: string, depth: nat)
    requires WellFormed(JObject(fields))
    ensures ParseValue(Write(JObject(fields), rest), depth)
         == if depth > 1 && FieldsWithin(fields, depth - 1) then Some(Parsed(JObject(fields), rest)) else None
    decreases fields, 3
  {
    Dispatch('{', WriteFields(fields, rest), depth);
    if depth > 1 { ObjectBodyParses(fields, rest, depth - 1); }
  }

  lemma {:induction false} ObjectBodyParses(fields: seq<Field>, rest: string, depth: nat)
    requires WellFormed(JObject(fields))
    ensures ParseObject(WriteFields(fields, rest), depth)
         == if FieldsWithin(fields, depth) then Some(Parsed(JObject(fields), rest)) else None
    decreases fields, 2
  {
    var text := WriteFields(fields, rest);
    NothingToSkip(text);
    if fields == [] {
      assert text[1..] == rest;
    } else {
      assert [] + fields == fields;
      FieldsParse(fields, rest, depth, []);
    }
  }

  lemma {:induction false} ItemsParse(items: seq<Json>, rest: string, depth: nat)
    requires forall i | 0 <= i < |items| :: WellFormed(items[i])
    ensures items != [] ==>
      ParseItems(WriteItems(items, rest), depth) == if AllWithin(items, depth) then Some(Parsed(items, rest)) else None
    ensures ParseArray(WriteItems(items, rest), depth)
         == if AllWithin(items, depth) then Some(Parsed(JArray(items), rest)) else None
    decreases items, 1
  {
    var text := WriteItems(items, rest);
    if items == [] {
      assert text[1..] == rest;
    } else {
      var more := items[1..];
      var tail := if |items| == 1 then [']'] + rest else [','] + WriteItems(more, rest);
      WriteStarts(items[0], tail);
      NothingToSkip(text);
      WriteParses(items[0], tail, depth);
      NothingToSkip(tail);
      assert items == [items[0]] + more;
      assert AllWithin(items, depth) <==> Within(items[0], depth) && AllWithin(more, depth);
      if |items| == 1 {
        assert tail[1..] == rest && [items[0]] == items;
      } else {
        ItemsParse(more, rest, depth);
        assert tail[1..] == WriteItems(more, rest);
      }
    }
  }

  lemma {:induction false} InsertFresh(fields: seq<Field>, f: Field)
    requires forall i | 0 <= i < |fields| :: fields[i].key != f.key
    ensures Insert(fields, f.key, f.value) == fields + [f]
  {
    assert Field(f.key, f.value) == f;
    if fields != [] {
      InsertFresh(fields[1..], f);
      assert fields == [fields[0]] + fields[1..];
    }
  }

  lemma FreshKey(before: seq<Field>, fields: seq<Field>)
    requires fields != [] && DistinctKeys(before + fields)
    ensures forall i | 0 <= i < |before| :: before[i].key != fields[0].key
  {
    forall i | 0 <= i < |before|
      ensures before[i].key != fields[0].key
    {
      assert (before + fields)[i] == before[i] && (before + fields)[|before|] == fields[0];
    }
  }

  /** One field, up to the delimiter after it. */
  lemma FieldStep(f: Field, tail: string, depth: nat, before: seq<Field>)
    requires Delimited(tail) && tail != ""
    requires ParseValue(Write(f.value, tail), depth)
          == if Within(f.value, depth) then Some(Parsed(f.value, tail)) else None
    requires forall i | 0 <= i < |before| :: before[i].key != f.key
    ensures var text := WriteString(f.key, [':'] + Write(f.value, tail));
      ParseFields(text, depth, before)
        == if !Within(f.value, depth) || tail[0] == ']' then None
           else if tail[0] == '}' then Some(Parsed(before + [f], tail[1..]))
           else ParseFields(tail[1..], depth, before + [f])
  {
    var value := [':'] + Write(f.value, tail);
    NothingToSkip(WriteString(f.key, value));
    assert WriteString(f.key, value)[1..] == WriteChars(f.key, value);
    CharsParse(f.key, value);
    NothingToSkip(value);
    assert value[1..] == Write(f.value, tail);
    NothingToSkip(tail);
    InsertFresh(before, f);
  }

  /** The fields still to be read: their keys are new, their values printable. */
  ghost predicate Readable(before: seq<Field>, fields: seq<Field>) {
    && DistinctKeys(before + fields)
    && forall i | 0 <= i < |fields| :: WellFormed(fields[i].value)
  }

  lemma ReadableStep(before: seq<Field>, fields: seq<Field>)
    requires fields != [] && Readable(before, fields)
    ensures WellFormed(fields[0].value)
    ensures forall i | 0 <= i < |before| :: before[i].key != fields[0].key
    ensures before + fields == (before + [fields[0]]) + fields[1..]
    ensures Readable(before + [fields[0]], fields[1..])
  {
    assert before + fields == (before + [fields[0]]) + fields[1..];
    FreshKey(before, fields);
  }

  lemma FieldsWithinStep(fields: seq<Field>, depth: nat)
    requires fields != []
    ensures FieldsWithin(fields, depth) <==> Within(fields[0].value, depth) && FieldsWithin(fields[1..], depth)
  {
  }

  lemma {:induction false} FieldsParse(fields: seq<Field>, rest: string, depth: nat, before: seq<Field>)
    requires fields != [] && Readable(before, fields)
    ensures ParseFields(WriteFields(fields, rest), depth, before)
         == if FieldsWithin(fields, depth) then Some(Parsed(before + fields, rest)) else None
    decreases fields, 1
  {
    var f, more := fields[0], fields[1..];
    var tail := if |fields| == 1 then ['}'] + rest else [','] + WriteFields(more, rest);
    ReadableStep(before, fields);
    WriteParses(f.value, tail, depth);
    FieldStep(f, tail, depth, before);
    FieldsWithinStep(fields, depth);
    if |fields| == 1 {
      assert tail[1..] == rest && before + [f] == before + fields;
    } else {
      FieldsParse(more, rest, depth, before + [f]);
      assert tail[1..] == WriteFields(more, rest);
    }
  }

  /** `from_str(to_string(v)) == v` exactly for the values within the nesting limit; the others are refused. */
  lemma ParseInvertsPrint(v: Json)
    requires WellFormed(v)
    ensures Parse(Print(v)) == if Within(v, MAX_DEPTH) then Some(v) else None
  {
    WriteParses(v, "", MAX_DEPTH);
  }

  lemma NumberAloneParses(x: Number)
    requires WellWritten(x)
    ensures Parse(WriteNumber(x, "")) == NumberValue(x)
  {
    NumberScans(x, "");
    NumberStarts(x, "");
    DispatchNumber(WriteNumber(x, ""), MAX_DEPTH);
  }

  lemma {:induction false} PowerIsPositive(base: nat, exponent: nat)
    requires base > 0
    ensures Power(base, exponent) > 0
  {
    if exponent > 0 { PowerIsPositive(base, exponent - 1); }
  }

  lemma {:induction false} PowerAdds(base: nat, m: nat, n: nat)
    ensures Power(base, m + n) == Power(base, m) * Power(base, n)
  {
    if m > 0 {
      PowerAdds(base, m - 1, n);
      Regroup(base, Power(base, m - 1), Power(base, n));
    }
  }

  lemma Regroup(a: nat, b: nat, c: nat)
    ensures a * (b * c) == (a * b) * c
  {
  }

  lemma {:induction false} DigitsAreBelow(digits: string)
    requires AllDigits(digits)
    ensures DigitsValue(digits) < Power(10, |digits|)
  {
    if digits != "" {
      var front := digits[..|digits| - 1];
      DigitsAreBelow(front);
      assert digits[|digits| - 1] in digits;
    }
  }

  lemma ScaleLess(m: nat, a: nat, limit: nat, scale: nat)
    requires m < a * scale && a <= limit
    ensures m < limit * scale
  {
    assert a * scale <= limit * scale;
  }

  /** A number without an exponent whose whole part is no longer than 64 bits need is in range. */
  lemma ShortNumberIsFinite(x: Number)
    requires WellWritten(x) && x.exponent.NoExponent? && |x.whole| <= 20
    ensures Finite(x)
  {
    hide Power, DigitsValue;
    var w, f := |x.whole|, |x.fraction|;
    DigitsAreBelow(x.whole + x.fraction);
    PowerAdds(10, w, f);
    ShortIsBelowLimit(w);
    ScaleLess(DigitsValue(x.whole + x.fraction), Power(10, w), FLOAT_LIMIT, Power(10, f));
  }

  lemma {:induction false} PowerGrows(base: nat, m: nat, n: nat)
    requires base > 0 && m <= n
    ensures Power(base, m) <= Power(base, n)
  {
    if m < n {
      PowerGrows(base, m, n - 1);
      assert Power(base, n - 1) <= base * Power(base, n - 1);
    }
  }

  lemma ShortIsBelowLimit(w: nat)
    requires w <= 20
    ensures Power(10, w) <= FLOAT_LIMIT
  {
    PowerGrows(10, w, 20);
    PowerIsPositive(TWO_TO_97, 10);
    PowerAdds(10, 10, 10);
    assert Power(10, 5) == 100_000;
    PowerAdds(10, 5, 5);
    assert FLOAT_LIMIT >= 0x3F_FFFF_FFFF_FFFF * TWO_TO_97;
  }

  // ---------- what is parsed can be printed ----------

  lemma {:induction false} InsertKeeps(fields: seq<Field>, key: string, value: Json)
    requires DistinctKeys(fields)
    ensures DistinctKeys(Insert(fields, key, value))
    ensures forall f | f in Insert(fields, key, value) :: f == Field(key, value) || f in fields
  {
    if fields != [] && fields[0].key != key {
      var more := Insert(fields[1..], key, value);
      InsertKeeps(fields[1..], key, value);
      forall i | 0 <= i < |more|
        ensures more[i].key != fields[0].key
      {
        assert more[i] in more;
      }
    }
  }

  /** Values that a parser may return at a depth. */
  predicate Printable(v: Json, depth: nat) {
    WellFormed(v) && Within(v, depth)
  }

  predicate PrintableFields(fields: seq<Field>, depth: nat) {
    DistinctKeys(fields) && forall f | f in fields :: Printable(f.value, depth)
  }

  lemma ParsedScalarIsPrintable(s: string, depth: nat)
    requires s != ""
    ensures var r := ParseScalar(s);
      r.Some? ==> Printable(r.value.value, depth)
  {
    ParsedNumberIsPrintable(s, depth);
  }

  lemma ParsedNumberIsPrintable(s: string, depth: nat)
    ensures ParseNumber(s).Some? ==> Printable(ParseNumber(s).value.value, depth)
  {
    var r := ScanNumber(s);
    if r.Some? { NumberValueIsPrintable(r.value.value, depth); }
  }

  lemma NumberValueIsPrintable(x: Number, depth: nat)
    requires WellWritten(x)
    ensures NumberValue(x).Some? ==> Printable(NumberValue(x).value, depth)
  {
  }

  lemma ArrayIsPrintable(items: seq<Json>, depth: nat)
    requires depth > 0 && forall i | 0 <= i < |items| :: Printable(items[i], depth)
    ensures Printable(JArray(items), depth + 1)
  {
  }

  lemma ObjectIsPrintable(fields: seq<Field>, depth: nat)
    requires depth > 0 && PrintableFields(fields, depth)
    ensures Printable(JObject(fields), depth + 1)
  {
    forall i | 0 <= i < |fields|
      ensures Printable(fields[i].value, depth)
    {
      assert fields[i] in fields;
    }
  }

  lemma {:induction false} ParsedIsPrintable(text: string, depth: nat)
    ensures var r := ParseValue(text, depth);
      r.Some? ==> Printable(r.value.value, depth)
    decreases |text|, 2
  {
    var s := SkipSpace(text);
    if s != "" && s[0] == '[' && depth > 1 {
      ParsedArrayIsPrintable(s[1..], depth - 1);
    } else if s != "" && s[0] == '{' && depth > 1 {
      ParsedObjectIsPrintable(s[1..], depth - 1);
    } else if s != "" {
      ParsedScalarIsPrintable(s, depth);
    }
  }

  lemma {:induction false} ParsedArrayIsPrintable(text: string, depth: nat)
    requires depth > 0
    ensures var r := ParseArray(text, depth);
      r.Some? ==> Printable(r.value.value, depth + 1)
    decreases |text|, 4
  {
    var t := SkipSpace(text);
    ParsedItemsArePrintable(t, depth);
    ArrayIsPrintable([], depth);
    var r := ParseItems(t, depth);
    if r.Some? { ArrayIsPrintable(r.value.value, depth); }
  }

  lemma {:induction false} ParsedObjectIsPrintable(text: string, depth: nat)
    requires depth > 0
    ensures var r := ParseObject(text, depth);
      r.Some? ==> Printable(r.value.value, depth + 1)
    decreases |text|, 4
  {
    var t := SkipSpace(text);
    ParsedFieldsArePrintable(t, depth, []);
    ObjectIsPrintable([], depth);
    var r := ParseFields(t, depth, []);
    if r.Some? { ObjectIsPrintable(r.value.value, depth); }
  }

  lemma {:induction false} ParsedItemsArePrintable(text: string, depth: nat)
    ensures var r := ParseItems(text, depth);
      r.Some? ==> forall i | 0 <= i < |r.value.value| :: Printable(r.value.value[i], depth)
    decreases |text|, 3
  {
    ParsedIsPrintable(text, depth);
    var first := ParseValue(text, depth);
    if first.Some? {
      var t := SkipSpace(first.value.rest);
      if t != "" && t[0] == ',' { ParsedItemsArePrintable(t[1..], depth); }
    }
  }

  lemma {:induction false} ParsedFieldsArePrintable(text: string, depth: nat, before: seq<Field>)
    requires PrintableFields(before, depth)
    ensures var r := ParseFields(text, depth, before);
      r.Some? ==> PrintableFields(r.value.value, depth)
    decreases |text|, 3
  {
    var s := SkipSpace(text);
    if s != "" && s[0] == '"' && ParseChars(s[1..]).Some? {
      var key := ParseChars(s[1..]).value;
      var t := SkipSpace(key.rest);
      if t != "" && t[0] == ':' && ParseValue(t[1..], depth).Some? {
        ParsedIsPrintable(t[1..], depth);
        var v := ParseValue(t[1..], depth).value;
        var fields := Insert(before, key.value, v.value);
        InsertKeeps(before, key.value, v.value);
        var u := SkipSpace(v.rest);
        if u != "" && u[0] == ',' { ParsedFieldsArePrintable(u[1..], depth, fields); }
      }
    }
  }

  /** Whatever text a value was read from, it is printed to a text from which it is read again. */
  lemma ParsedComesBack(text: string)
    ensures Parse(text).Some? ==> Parse(Print(Parse(text).value)) == Parse(text)
  {
    ParsedIsPrintable(text, MAX_DEPTH);
    if Parse(text).Some? { ParseInvertsPrint(Parse(text).value); }
  }

  /** A number is kept as it was written, to the last digit. */
  lemma NumberIsKept(s: string)
    ensures var r := ScanNumber(s);
      r.Some? ==> WriteNumber(r.value.value, r.value.rest) == s
  {
    var r := ScanNumber(s);
    if r.Some? {
      var t := SpanDigits(if r.value.value.negative then s[1..] else s).1;
      var f := ScanFraction(t).value;
      FractionIsKept(t);
      ExponentIsKept(f.rest);
      if r.value.value.negative { assert s == ['-'] + s[1..]; }
    }
  }

  lemma FractionIsKept(s: string)
    ensures var r := ScanFraction(s);
      r.Some? ==> WriteFraction(r.value.value, r.value.rest) == s
  {
    if s != "" && s[0] == '.' { assert s == ['.'] + s[1..]; }
  }

  lemma ExponentIsKept(s: string)
    ensures var r := ScanExponent(s);
      r.Some? ==> WriteExponent(r.value.value, r.value.rest) == s
  {
    if ScanExponent(s).Some? && ScanExponent(s).value.value.Exponent? {
      var sign := ScanExponent(s).value.value.sign;
      assert s == [s[0]] + (sign + s[1 + |sign|..]);
    }
  }

  // ---------- the printed form stays on one line ----------

  lemma {:induction false} CharsHaveNoNewline(s: string, rest: string)
    requires '\n' !in rest
    ensures '\n' !in WriteChars(s, rest)
  {
    if s != "" { CharsHaveNoNewline(s[1..], rest); }
  }

  lemma NumberHasNoNewline(x: Number, rest: string)
    requires WellWritten(x) && '\n' !in rest
    ensures '\n' !in WriteNumber(x, rest)
  {
  }

  lemma {:induction false} PrintIsOneLine(v: Json, rest: string)
    requires WellFormed(v) && '\n' !in rest
    ensures '\n' !in Write(v, rest)
    decreases v, 0
  {
    match v {
      case JNumber(n) =>
        IntegerIsWritten(n);
        NumberHasNoNewline(IntegerNumber(n), rest);
      case JFloat(x) => NumberHasNoNewline(x, rest);
      case JString(s) => CharsHaveNoNewline(s, rest);
      case JArray(items) => ItemsAreOneLine(items, rest);
      case JObject(fields) => FieldsAreOneLine(fields, rest);
      case _ =>
    }
  }

  lemma {:induction false} ItemsAreOneLine(items: seq<Json>, rest: string)
    requires '\n' !in rest && forall i | 0 <= i < |items| :: WellFormed(items[i])
    ensures '\n' !in WriteItems(items, rest)
    decreases items, 1
  {
    if items != [] {
      if |items| > 1 { ItemsAreOneLine(items[1..], rest); }
      PrintIsOneLine(items[0], if |items| == 1 then [']'] + rest else [','] + WriteItems(items[1..], rest));
    }
  }

  lemma {:induction false} FieldsAreOneLine(fields: seq<Field>, rest: string)
    requires '\n' !in rest && forall i | 0 <= i < |fields| :: WellFormed(fields[i].value)
    ensures '\n' !in WriteFields(fields, rest)
    decreases fields, 1
  {
    if fields != [] {
      var f := fields[0];
      if |fields| > 1 { FieldsAreOneLine(fields[1..], rest); }
      var tail := if |fields| == 1 then ['}'] + rest else [','] + WriteFields(fields[1..], rest);
      PrintIsOneLine(f.value, tail);
      CharsHaveNoNewline(f.key, [':'] + Write(f.value, tail));
    }
  }

  // ---------- how the printed form begins and ends ----------

  lemma PrefixKeepsEnd(a: string, s: string, t: string)
    requires EndsWith(s, t)
    ensures EndsWith(a + s, t)
  {
    assert (a + s)[|a + s| - |t|..] == s[|s| - |t|..];
  }

  lemma EndTransitive(s: string, t: string, u: string)
    requires EndsWith(s, t) && EndsWith(t, u)
    ensures EndsWith(s, u)
  {
    assert s[|s| - |u|..] == s[|s| - |t|..][|t| - |u|..];
  }

  lemma {:induction false} CharsKeepEnd(s: string, rest: string)
    ensures EndsWith(WriteChars(s, rest), rest)
  {
    if s == "" {
      PrefixKeepsEnd(['"'], rest, rest);
    } else {
      CharsKeepEnd(s[1..], rest);
      PrefixKeepsEnd(EscapeChar(s[0]), WriteChars(s[1..], rest), rest);
    }
  }

  lemma NumberKeepsEnd(x: Number, rest: string)
    ensures EndsWith(WriteNumber(x, rest), rest)
  {
    var t := WriteExponent(x.exponent, rest);
    match x.exponent {
      case NoExponent =>
      case Exponent(mark, sign, digits) =>
        PrefixKeepsEnd(digits, rest, rest);
        PrefixKeepsEnd(sign, digits + rest, rest);
        PrefixKeepsEnd([mark], sign + (digits + rest), rest);
    }
    PrefixKeepsEnd(x.fraction, t, rest);
    PrefixKeepsEnd(['.'], x.fraction + t, rest);
    PrefixKeepsEnd(x.whole, WriteFraction(x.fraction, t), rest);
    PrefixKeepsEnd(['-'], x.whole + WriteFraction(x.fraction, t), rest);
  }

  lemma {:induction false} WriteKeepsEnd(v: Json, rest: string)
    ensures EndsWith(Write(v, rest), rest)
    decreases v, 0
  {
    match v {
      case JNull => PrefixKeepsEnd("null", rest, rest);
      case JBool(b) => PrefixKeepsEnd(if b then "true" else "false", rest, rest);
      case JNumber(n) => NumberKeepsEnd(IntegerNumber(n), rest);
      case JFloat(x) => NumberKeepsEnd(x, rest);
      case JString(s) =>
        CharsKeepEnd(s, rest);
        PrefixKeepsEnd(['"'], WriteChars(s, rest), rest);
      case JArray(items) =>
        ItemsKeepEnd(items, rest);
        PrefixKeepsEnd(['['], WriteItems(items, rest), rest);
      case JObject(fields) =>
        FieldsKeepEnd(fields, rest);
        PrefixKeepsEnd(['}'], rest, rest);
        EndTransitive(WriteFields(fields, rest), ['}'] + rest, rest);
        PrefixKeepsEnd(['{'], WriteFields(fields, rest), rest);
    }
  }

  lemma {:induction false} ItemsKeepEnd(items: seq<Json>, rest: string)
    ensures EndsWith(WriteItems(items, rest), rest)
    decreases items, 1
  {
    PrefixKeepsEnd([']'], rest, rest);
    if items != [] {
      var tail := if |items| == 1 then [']'] + rest else [','] + WriteItems(items[1..], rest);
      if |items| > 1 {
        ItemsKeepEnd(items[1..], rest);
        PrefixKeepsEnd([','], WriteItems(items[1..], rest), rest);
      }
      WriteKeepsEnd(items[0], tail);
      EndTransitive(WriteItems(items, rest), tail, rest);
    }
  }

  lemma {:induction false} FieldsKeepEnd(fields: seq<Field>, rest: string)
    ensures EndsWith(WriteFields(fields, rest), ['}'] + rest)
    decreases fields, 1
  {
    if fields != [] {
      var f := fields[0];
      var tail := if |fields| == 1 then ['}'] + rest else [','] + WriteFields(fields[1..], rest);
      if |fields| > 1 {
        FieldsKeepEnd(fields[1..], rest);
        PrefixKeepsEnd([','], WriteFields(fields[1..], rest), ['}'] + rest);
      }
      var value := Write(f.value, tail);
      WriteKeepsEnd(f.value, tail);
      PrefixKeepsEnd([':'], value, tail);
      CharsKeepEnd(f.key, [':'] + value);
      PrefixKeepsEnd(['"'], WriteChars(f.key, [':'] + value), [':'] + value);
      EndTransitive(WriteFields(fields, rest), [':'] + value, tail);
      EndTransitive(WriteFields(fields, rest), tail, ['}'] + rest);
    }
  }

  /** A printed object is one line between braces. */
  lemma ObjectShape(fields: seq<Field>)
    requires WellFormed(JObject(fields))
    ensures var t := Print(JObject(fields));
      |t| >= 2 && t[0] == '{' && t[|t| - 1] == '}' && '\n' !in t
  {
    FieldsKeepEnd(fields, "");
    PrintIsOneLine(JObject(fields), "");
  }
}
