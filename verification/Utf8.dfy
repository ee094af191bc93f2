/** Incremental UTF-8 decoding (sections 3 and 4 of RFC 3629). */
module Utf8 {
  import opened Prelude

  type Byte = n: int | 0 <= n < 0x100

  // ---------- the encoding ----------

  /** The bytes of one character. */
  function Encode(c: char): (b: seq<Byte>)
    ensures 1 <= |b| <= 4
  {
    var n := c as int;
    if n < 0x80 then [n]
    else if n < 0x800 then [0xC0 + n / 64, 0x80 + n % 64]
    else if n < 0x1_0000 then [0xE0 + n / 64 / 64, 0x80 + n / 64 % 64, 0x80 + n % 64]
    else [0xF0 + n / 64 / 64 / 64, 0x80 + n / 64 / 64 % 64, 0x80 + n / 64 % 64, 0x80 + n % 64]
  }

  function EncodeAll(s: string): seq<Byte> {
    if s == "" then [] else Encode(s[0]) + EncodeAll(s[1..])
  }

  lemma {:induction false} EncodeAppend(a: string, b: string)
    ensures EncodeAll(a + b) == EncodeAll(a) + EncodeAll(b)
  {
    if a == "" {
      assert a + b == b;
    } else {
      assert (a + b)[1..] == a[1..] + b;
      EncodeAppend(a[1..], b);
    }
  }

  // ---------- decoding ----------

  /** What a byte sequence starts with: a character, a malformed sequence to skip, or part of a character. */
  datatype Head = Complete(c: char, width: nat) | Malformed(width: nat) | Partial

  predicate IsContinuation(b: Byte) {
    0x80 <= b < 0xC0
  }

  /** The second bytes that a first byte allows. */
  predicate SecondFits(first: Byte, second: Byte) {
    match first
    case 0xE0 => 0xA0 <= second < 0xC0
    case 0xED => 0x80 <= second < 0xA0
    case 0xF0 => 0x90 <= second < 0xC0
    case 0xF4 => 0x80 <= second < 0x90
    case _ => IsContinuation(second)
  }

  /** A number with one more base-64 digit, taken from a continuation byte. */
  function Shift(n: nat, b: Byte): int {
    n * 64 + (b as int - 0x80)
  }

  lemma ShiftedDigits(n: nat, b: Byte)
    requires IsContinuation(b)
    ensures Shift(n, b) / 64 == n && 0x80 + Shift(n, b) % 64 == b
  {
  }

  function DecodeHead(b: seq<Byte>): (h: Head)
    requires b != []
    ensures h.Complete? ==> 1 <= h.width <= |b|
    ensures h.Malformed? ==> 1 <= h.width <= |b|
    ensures h.Partial? ==> |b| <= 3
  {
    var first := b[0];
    if first < 0x80 then Complete(first as char, 1)
    else if first < 0xC2 || 0xF4 < first then Malformed(1)
    else if |b| < 2 then Partial
    else if !SecondFits(first, b[1]) then Malformed(1)
    else if first < 0xE0 then Complete(Shift(first - 0xC0, b[1]) as char, 2)
    else if |b| < 3 then Partial
    else if !IsContinuation(b[2]) then Malformed(2)
    else if first < 0xF0 then Complete(Shift(Shift(first - 0xE0, b[1]), b[2]) as char, 3)
    else if |b| < 4 then Partial
    else if !IsContinuation(b[3]) then Malformed(3)
    else Complete(Shift(Shift(Shift(first - 0xF0, b[1]), b[2]), b[3]) as char, 4)
  }

  /** The longest valid prefix, the bytes after it, and the length of the malformed sequence that stopped it, if any. */
  datatype Scan = Scan(text: string, rest: seq<Byte>, malformed: nat)

  function FromUtf8(b: seq<Byte>): (s: Scan)
    ensures s.malformed <= |s.rest| <= |b|
    ensures s.malformed == 0 ==> |s.rest| <= 3
  {
    if b == [] then Scan("", [], 0)
    else match DecodeHead(b)
      case Complete(c, width) =>
        var more := FromUtf8(b[width..]);
        Scan([c] + more.text, more.rest, more.malformed)
      case Malformed(width) => Scan("", b, width)
      case Partial => Scan("", b, 0)
  }

  lemma EncodedHead(c: char, rest: seq<Byte>)
    ensures DecodeHead(Encode(c) + rest) == Complete(c, |Encode(c)|)
  {
  }

  lemma PartialHead(c: char, k: nat)
    requires 0 < k < |Encode(c)|
    ensures DecodeHead(Encode(c)[..k]) == Partial
  {
  }

  lemma HeadReencodes(b: seq<Byte>)
    requires b != [] && DecodeHead(b).Complete?
    ensures Encode(DecodeHead(b).c) == b[..DecodeHead(b).width]
  {
    var w := DecodeHead(b).width;
    if w == 2 {
      ShiftedDigits(b[0] - 0xC0, b[1]);
    } else if w == 3 {
      ShiftedDigits(b[0] - 0xE0, b[1]);
      ShiftedDigits(Shift(b[0] - 0xE0, b[1]), b[2]);
    } else if w == 4 {
      ShiftedDigits(b[0] - 0xF0, b[1]);
      ShiftedDigits(Shift(b[0] - 0xF0, b[1]), b[2]);
      ShiftedDigits(Shift(Shift(b[0] - 0xF0, b[1]), b[2]), b[3]);
    }
  }

  // ---------- whole byte sequences ----------

  /** The proper prefixes of the bytes of a character, the empty one included. */
  ghost predicate Incomplete(b: seq<Byte>) {
    b == [] || exists c :: |b| < |Encode(c)| && b == Encode(c)[..|b|]
  }

  /** Decoding is strict: what it reads, it reads as written, and it invents nothing. */
  lemma {:induction false} ScanReencodes(b: seq<Byte>)
    ensures EncodeAll(FromUtf8(b).text) + FromUtf8(b).rest == b
  {
    if b != [] && DecodeHead(b).Complete? {
      HeadReencodes(b);
      ScanReencodes(b[DecodeHead(b).width..]);
      var s := FromUtf8(b);
      assert s.text[1..] == FromUtf8(b[DecodeHead(b).width..]).text;
    }
  }

  /** An encoded text followed by part of one more character scans to the text and that part. */
  lemma {:induction false} EncodedScans(s: string, tail: seq<Byte>)
    requires Incomplete(tail)
    ensures FromUtf8(EncodeAll(s) + tail) == Scan(s, tail, 0)
  {
    if s == "" {
      assert EncodeAll(s) + tail == tail;
      if tail != [] {
        var c :| |tail| < |Encode(c)| && tail == Encode(c)[..|tail|];
        PartialHead(c, |tail|);
      }
    } else {
      var more := EncodeAll(s[1..]) + tail;
      Associative(Encode(s[0]), EncodeAll(s[1..]), tail);
      EncodedHead(s[0], more);
      assert (Encode(s[0]) + more)[|Encode(s[0])|..] == more;
      EncodedScans(s[1..], tail);
      assert s == [s[0]] + s[1..];
    }
  }

  /** The decoder accepts exactly the encodings of texts. */
  lemma AcceptsExactlyEncodings(b: seq<Byte>)
    ensures FromUtf8(b).rest == [] <==> exists s :: b == EncodeAll(s)
  {
    ScanReencodes(b);
    if FromUtf8(b).rest == [] {
      assert b == EncodeAll(FromUtf8(b).text);
    }
    if s :| b == EncodeAll(s) {
      assert EncodeAll(s) + [] == b;
      EncodedScans(s, []);
    }
  }

  lemma EncodePrefix(s: string, k: nat)
    requires k < |s|
    ensures EncodeAll(s[..k + 1]) == Encode(s[0]) + EncodeAll(s[1..][..k])
  {
    assert s[..k + 1][1..] == s[1..][..k];
  }

  lemma TakeThrough<T>(a: seq<T>, b: seq<T>, n: nat)
    requires |a| <= n <= |a| + |b|
    ensures (a + b)[..n] == a + b[..n - |a|]
  {
  }

  /** A prefix of an encoded text is an encoded prefix and part of the next character. */
  lemma {:induction false} PrefixOfEncoded(s: string, n: nat) returns (k: nat, tail: seq<Byte>)
    requires n <= |EncodeAll(s)|
    ensures k <= |s| && Incomplete(tail) && EncodeAll(s)[..n] == EncodeAll(s[..k]) + tail
  {
    if s == "" {
      k, tail := 0, [];
    } else {
      var head, more := Encode(s[0]), EncodeAll(s[1..]);
      if n < |head| {
        k, tail := 0, head[..n];
        assert s[..0] == "";
      } else {
        k, tail := PrefixOfEncoded(s[1..], n - |head|);
        EncodePrefix(s, k);
        TakeThrough(head, more, n);
        Associative(head, EncodeAll(s[1..][..k]), tail);
        k := k + 1;
      }
    }
  }

  /** What is left over has at most three bytes. */
  lemma IncompleteIsShort(b: seq<Byte>)
    requires Incomplete(b)
    ensures |b| <= 3
  {
  }

  // ---------- the incremental decoder ----------

  const REPLACEMENT := 0xFFFD as char

  /** `from_utf8_lossy`: every malformed sequence and a truncated end become one replacement character each. */
  function Lossy(b: seq<Byte>): string {
    if b == [] then ""
    else match DecodeHead(b)
      case Complete(c, width) => [c] + Lossy(b[width..])
      case Malformed(width) => [REPLACEMENT] + Lossy(b[width..])
      case Partial => [REPLACEMENT]
  }

  class IncrementalUtf8 {
    var residual: seq<Byte>

    constructor ()
      ensures residual == []
    {
      residual := [];
    }

    /** Returns the text up to the first malformed sequence, skips that sequence and keeps everything after it. */
    method Push(bytes: seq<Byte>) returns (text: string)
      modifies this
      ensures var s := FromUtf8(old(residual) + bytes); text == s.text && residual == s.rest[s.malformed..]
      ensures |residual| <= |old(residual)| + |bytes|
    {
      var s := FromUtf8(residual + bytes);
      text := s.text;
      residual := s.rest[s.malformed..];
    }

    method Finish() returns (text: string)
      modifies this
      ensures text == Lossy(old(residual)) && residual == []
    {
      text := Lossy(residual);
      residual := [];
    }
  }

  /** The text of all chunks, each decoded as it comes, and what is left at the end. */
  function Texts(residual: seq<Byte>, chunks: seq<seq<Byte>>): (r: (seq<string>, seq<Byte>))
    ensures |r.0| == |chunks|
    decreases |chunks|
  {
    if chunks == [] then ([], residual)
    else
      var s := FromUtf8(residual + chunks[0]);
      var (texts, left) := Texts(s.rest[s.malformed..], chunks[1..]);
      ([s.text] + texts, left)
  }

  lemma TextsNext(residual: seq<Byte>, chunks: seq<seq<Byte>>)
    requires chunks != []
    ensures var s := FromUtf8(residual + chunks[0]);
      var more := Texts(s.rest[s.malformed..], chunks[1..]);
      Flatten(Texts(residual, chunks).0) == s.text + Flatten(more.0) && Texts(residual, chunks).1 == more.1
  {
  }

  /** Like `PrefixOfEncoded`, when part of one more character follows. */
  lemma PrefixOfPartial(s: string, end: seq<Byte>, n: nat) returns (k: nat, tail: seq<Byte>)
    requires Incomplete(end) && n <= |EncodeAll(s)| + |end|
    ensures k <= |s| && Incomplete(tail) && (EncodeAll(s) + end)[..n] == EncodeAll(s[..k]) + tail
  {
    var all := EncodeAll(s);
    if n <= |all| {
      k, tail := PrefixOfEncoded(s, n);
      assert (all + end)[..n] == all[..n];
    } else {
      k, tail := |s|, end[..n - |all|];
      assert s[..k] == s && (all + end)[..n] == all + tail;
      var c :| |end| < |Encode(c)| && end == Encode(c)[..|end|];
      assert tail == Encode(c)[..|tail|];
    }
  }

  /** The pieces of a chunked stream concatenate to the text it has encoded so far; the residual is what is missing. */
  lemma {:induction false} ChunksDecode(residual: seq<Byte>, chunks: seq<seq<Byte>>, s: string, end: seq<Byte>)
    requires residual + Flatten(chunks) == EncodeAll(s) + end
    requires Incomplete(residual) && Incomplete(end)
    ensures Flatten(Texts(residual, chunks).0) == s && Texts(residual, chunks).1 == end
    decreases |chunks|
  {
    if chunks == [] {
      assert residual + [] == residual;
      OnlyResidual(residual, s, end);
    } else {
      var later := Flatten(chunks[1..]);
      Associative(residual, chunks[0], later);
      var k, tail := FirstPiece(residual + chunks[0], later, s, end);
      ChunksDecode(tail, chunks[1..], s[k..], end);
      TextsJoin(residual, chunks, s, k, tail);
    }
  }

  /** What is missing at the end encodes no character. */
  lemma OnlyResidual(residual: seq<Byte>, s: string, end: seq<Byte>)
    requires residual == EncodeAll(s) + end && Incomplete(residual) && Incomplete(end)
    ensures s == "" && residual == end
  {
    EncodedScans(s, end);
    assert EncodeAll("") + residual == residual;
    EncodedScans("", residual);
  }

  lemma TextsJoin(residual: seq<Byte>, chunks: seq<seq<Byte>>, s: string, k: nat, tail: seq<Byte>)
    requires chunks != [] && k <= |s| && FromUtf8(residual + chunks[0]) == Scan(s[..k], tail, 0)
    requires Flatten(Texts(tail, chunks[1..]).0) == s[k..]
    ensures Flatten(Texts(residual, chunks).0) == s
    ensures Texts(residual, chunks).1 == Texts(tail, chunks[1..]).1
  {
    TextsNext(residual, chunks);
    assert tail[0..] == tail && s == s[..k] + s[k..];
  }

  /** What the first piece of a stream decodes to, and what the rest of the stream is. */
  lemma FirstPiece(b: seq<Byte>, later: seq<Byte>, s: string, end: seq<Byte>) returns (k: nat, tail: seq<Byte>)
    requires b + later == EncodeAll(s) + end && Incomplete(end)
    ensures k <= |s| && Incomplete(tail) && FromUtf8(b) == Scan(s[..k], tail, 0)
    ensures tail + later == EncodeAll(s[k..]) + end
  {
    k, tail := PrefixOfPartial(s, end, |b|);
    assert (b + later)[..|b|] == b;
    EncodedScans(s[..k], tail);
    RestOfStream(s, k, tail, later, end);
  }

  lemma RestOfStream(s: string, k: nat, tail: seq<Byte>, later: seq<Byte>, end: seq<Byte>)
    requires k <= |s| && EncodeAll(s[..k]) + tail + later == EncodeAll(s) + end
    ensures tail + later == EncodeAll(s[k..]) + end
  {
    var done := EncodeAll(s[..k]);
    assert s == s[..k] + s[k..];
    EncodeAppend(s[..k], s[k..]);
    Associative(done, tail, later);
    Associative(done, EncodeAll(s[k..]), end);
    CancelLeft(done, tail + later, EncodeAll(s[k..]) + end);
  }

  lemma CancelLeft<T>(a: seq<T>, x: seq<T>, y: seq<T>)
    requires a + x == a + y
    ensures x == y
  {
    assert (a + x)[|a|..] == x && (a + y)[|a|..] == y;
  }

  /**
   * Decoding a valid stream is independent of its chunk boundaries: the pieces concatenate to the encoded text, the
   * residual never exceeds three bytes, and nothing is left at the end.
   */
  lemma DecodingIgnoresChunkBoundaries(chunks: seq<seq<Byte>>, s: string)
    requires Flatten(chunks) == EncodeAll(s)
    ensures Flatten(Texts([], chunks).0) == s && Texts([], chunks).1 == []
    ensures forall n | 0 <= n <= |chunks| :: |Texts([], chunks[..n]).1| <= 3
  {
    var none: seq<Byte> := [];
    assert none + Flatten(chunks) == EncodeAll(s) + none;
    ChunksDecode([], chunks, s, []);
    forall n | 0 <= n <= |chunks|
      ensures |Texts([], chunks[..n]).1| <= 3
    {
      assert chunks == chunks[..n] + chunks[n..];
      FlattenAppend(chunks[..n], chunks[n..]);
      var k, tail := PrefixOfEncoded(s, |Flatten(chunks[..n])|);
      assert none + Flatten(chunks[..n]) == EncodeAll(s)[..|Flatten(chunks[..n])|];
      ChunksDecode([], chunks[..n], s[..k], tail);
      IncompleteIsShort(tail);
    }
  }

  // ---------- malformed streams ----------

  /** How many malformed sequences a decoder meets that skips each of them. */
  function Malformations(b: seq<Byte>): nat {
    if b == [] then 0
    else match DecodeHead(b)
      case Complete(_, width) => Malformations(b[width..])
      case Malformed(width) => 1 + Malformations(b[width..])
      case Partial => 0
  }

  /** The text with every malformed sequence left out; only a truncated end is replaced. */
  function Skipped(b: seq<Byte>): string {
    if b == [] then ""
    else match DecodeHead(b)
      case Complete(c, width) => [c] + Skipped(b[width..])
      case Malformed(width) => Skipped(b[width..])
      case Partial => [REPLACEMENT]
  }

  /** All that comes out of a stream in chunks, the end included. */
  function Decoded(residual: seq<Byte>, chunks: seq<seq<Byte>>): string {
    Flatten(Texts(residual, chunks).0) + Lossy(Texts(residual, chunks).1)
  }

  /** What a push keeps. */
  function Kept(b: seq<Byte>): seq<Byte> {
    FromUtf8(b).rest[FromUtf8(b).malformed..]
  }

  lemma HeadStays(b: seq<Byte>, later: seq<Byte>)
    requires b != [] && !DecodeHead(b).Partial?
    ensures DecodeHead(b + later) == DecodeHead(b)
    ensures (b + later)[DecodeHead(b).width..] == b[DecodeHead(b).width..] + later
  {
  }

  /** A push takes the text up to the first malformed sequence, and that sequence. */
  lemma {:induction false} PushTakes(b: seq<Byte>, later: seq<Byte>)
    ensures Skipped(b + later) == FromUtf8(b).text + Skipped(Kept(b) + later)
    ensures Malformations(b + later)
         == Malformations(Kept(b) + later) + if FromUtf8(b).malformed == 0 then 0 else 1
    ensures FromUtf8(b).malformed == 0 ==> Malformations(Kept(b)) == 0
    decreases |b|
  {
    if b != [] && !DecodeHead(b).Partial? {
      HeadStays(b, later);
      if DecodeHead(b).Complete? {
        var more := b[DecodeHead(b).width..];
        PushTakes(more, later);
        assert Kept(b) == Kept(more);
        Associative([DecodeHead(b).c], FromUtf8(more).text, Skipped(Kept(b) + later));
      }
    }
  }

  lemma {:induction false} PrefixIsWellFormed(a: seq<Byte>, b: seq<Byte>)
    requires Malformations(a + b) == 0
    ensures Malformations(a) == 0
    decreases |a|
  {
    if a != [] && !DecodeHead(a).Partial? {
      HeadStays(a, b);
      PrefixIsWellFormed(a[DecodeHead(a).width..], b);
    }
  }

  /** The final flush replaces what a push would have skipped. */
  lemma {:induction false} FlushReplaces(b: seq<Byte>)
    ensures |Lossy(b)| == |Skipped(b)| + Malformations(b)
    ensures Malformations(b) == 0 ==> Lossy(b) == Skipped(b)
    decreases |b|
  {
    if b != [] && !DecodeHead(b).Partial? { FlushReplaces(b[DecodeHead(b).width..]); }
  }

  lemma DecodedNext(residual: seq<Byte>, chunks: seq<seq<Byte>>)
    requires chunks != []
    ensures var b := residual + chunks[0];
      Decoded(residual, chunks) == FromUtf8(b).text + Decoded(Kept(b), chunks[1..])
  {
    TextsNext(residual, chunks);
    var more := Texts(Kept(residual + chunks[0]), chunks[1..]);
    Associative(FromUtf8(residual + chunks[0]).text, Flatten(more.0), Lossy(more.1));
  }

  /** A single malformed sequence is left out, wherever the stream was cut. */
  lemma {:induction false} OneMalformedIsSkipped(residual: seq<Byte>, chunks: seq<seq<Byte>>)
    requires Malformations(residual) == 0 && Malformations(residual + Flatten(chunks)) <= 1
    ensures Decoded(residual, chunks) == Skipped(residual + Flatten(chunks))
    decreases |chunks|
  {
    if chunks == [] {
      assert residual + [] == residual;
      FlushReplaces(residual);
    } else {
      var b, later := residual + chunks[0], Flatten(chunks[1..]);
      Associative(residual, chunks[0], later);
      PushTakes(b, later);
      if FromUtf8(b).malformed != 0 { PrefixIsWellFormed(Kept(b), later); }
      OneMalformedIsSkipped(Kept(b), chunks[1..]);
      DecodedNext(residual, chunks);
    }
  }

  function Empties(n: nat): seq<seq<Byte>> {
    if n == 0 then [] else [[]] + Empties(n - 1)
  }

  lemma {:induction false} EmptiesAreEmpty(n: nat)
    ensures Flatten(Empties(n)) == []
  {
    if n > 0 { EmptiesAreEmpty(n - 1); }
  }

  /** A push of nothing new. */
  lemma PushOfNothing(b: seq<Byte>)
    ensures Malformations(b) == Malformations(Kept(b)) + if FromUtf8(b).malformed == 0 then 0 else 1
    ensures FromUtf8(b).malformed == 0 ==> Malformations(b) == 0
    ensures Skipped(b) == FromUtf8(b).text + Skipped(Kept(b))
  {
    PushTakes(b, []);
    assert b + [] == b && Kept(b) + [] == Kept(b);
  }

  lemma EmptyChunk(residual: seq<Byte>, n: nat)
    requires n > 0
    ensures Decoded(residual, Empties(n)) == FromUtf8(residual).text + Decoded(Kept(residual), Empties(n - 1))
  {
    assert residual + [] == residual && Empties(n)[1..] == Empties(n - 1);
    DecodedNext(residual, Empties(n));
  }

  /** Empty chunks push the decoder over the malformed sequences that it has kept. */
  lemma {:induction false} EmptiesSkip(residual: seq<Byte>, n: nat)
    requires Malformations(residual) <= n
    ensures Decoded(residual, Empties(n)) == Skipped(residual)
    decreases n
  {
    if n == 0 {
      FlushReplaces(residual);
    } else {
      PushOfNothing(residual);
      EmptiesSkip(Kept(residual), n - 1);
      EmptyChunk(residual, n);
    }
  }

  lemma FirstChunk(b: seq<Byte>, more: seq<seq<Byte>>)
    ensures Decoded([], [b] + more) == FromUtf8(b).text + Decoded(Kept(b), more)
    ensures Flatten([b] + more) == b + Flatten(more)
  {
    assert [] + b == b && ([b] + more)[1..] == more;
    DecodedNext([], [b] + more);
  }

  lemma OneChunk(b: seq<Byte>)
    ensures Decoded([], [b]) == FromUtf8(b).text + Lossy(Kept(b)) && Flatten([b]) == b
  {
    var none: seq<seq<Byte>> := [];
    FirstChunk(b, none);
    assert [b] + none == [b] && b + [] == b;
    assert Decoded(Kept(b), none) == "" + Lossy(Kept(b)) == Lossy(Kept(b));
  }

  lemma ChunkAndThenNothing(b: seq<Byte>, n: nat)
    requires Malformations(Kept(b)) <= n
    ensures Decoded([], [b] + Empties(n)) == FromUtf8(b).text + Skipped(Kept(b)) && Flatten([b] + Empties(n)) == b
  {
    FirstChunk(b, Empties(n));
    EmptiesSkip(Kept(b), n);
    EmptiesAreEmpty(n);
    assert b + [] == b;
  }

  lemma OneMalformedInAnyChunks(chunks: seq<seq<Byte>>)
    requires Malformations(Flatten(chunks)) <= 1
    ensures Decoded([], chunks) == Skipped(Flatten(chunks))
  {
    assert [] + Flatten(chunks) == Flatten(chunks);
    OneMalformedIsSkipped([], chunks);
  }

  /** With empty chunks allowed, the text is independent of the chunks exactly if at most one sequence is malformed. */
  lemma ChunksDoNotMatterExactlyWhen(b: seq<Byte>)
    ensures (forall chunks: seq<seq<Byte>> | Flatten(chunks) == b :: Decoded([], chunks) == Decoded([], [b]))
      <==> Malformations(b) <= 1
  {
    OneChunk(b);
    if Malformations(b) <= 1 {
      OneMalformedInAnyChunks([b]);
      forall chunks: seq<seq<Byte>> | Flatten(chunks) == b
        ensures Decoded([], chunks) == Decoded([], [b])
      {
        OneMalformedInAnyChunks(chunks);
      }
    } else {
      var n := Malformations(Kept(b));
      PushOfNothing(b);
      ChunkAndThenNothing(b, n);
      FlushReplaces(Kept(b));
      assert |Decoded([], [b] + Empties(n))| < |Decoded([], [b])|;
    }
  }

  /** A malformed byte leaves everything behind it undecoded until the next chunk comes, however long it is. */
  lemma MalformedByteHoldsBack(b: seq<Byte>)
    ensures Texts([], [[0xFF] + b]) == ([""], b)
  {
    var bytes: seq<Byte> := [0xFF] + b;
    assert [] + bytes == bytes && bytes[1..] == b && [bytes][1..] == [];
    assert Texts(b, []) == ([], b) && [""] + [] == [""];
  }

  // ---------- chunks of at least one byte ----------

  predicate NonEmpty(chunks: seq<seq<Byte>>) {
    forall i | 0 <= i < |chunks| :: chunks[i] != []
  }

  /** What a stream decodes to in one chunk. */
  function Whole(b: seq<Byte>): string {
    FromUtf8(b).text + Lossy(Kept(b))
  }

  /** Everything but the last byte. */
  function Front(b: seq<Byte>): seq<Byte> {
    if b == [] then [] else b[..|b| - 1]
  }

  /** A scan that met nothing malformed goes on where it stopped. */
  lemma {:induction false} ScanContinues(b: seq<Byte>, later: seq<Byte>)
    requires FromUtf8(b).malformed == 0
    ensures FromUtf8(b + later).text == FromUtf8(b).text + FromUtf8(Kept(b) + later).text
    ensures Kept(b + later) == Kept(Kept(b) + later)
    decreases |b|
  {
    if b != [] && DecodeHead(b).Complete? {
      var more := b[DecodeHead(b).width..];
      HeadStays(b, later);
      ScanContinues(more, later);
      assert Kept(b) == Kept(more);
      Associative([DecodeHead(b).c], FromUtf8(more).text, FromUtf8(Kept(b) + later).text);
    }
  }

  lemma FrontAppend(b: seq<Byte>, later: seq<Byte>)
    requires later != []
    ensures Front(b + later) == b + Front(later)
  {
  }

  /** The first chunk ends before the last byte, so it decodes to a text and part of a character. */
  lemma FirstOfMany(b: seq<Byte>, later: seq<Byte>)
    requires later != [] && Malformations(Front(b + later)) == 0
    ensures FromUtf8(b).malformed == 0 && Malformations(Front(Kept(b) + later)) == 0
    ensures Whole(b + later) == FromUtf8(b).text + Whole(Kept(b) + later)
  {
    FrontAppend(b, later);
    FrontAppend(Kept(b), later);
    PrefixIsWellFormed(b, Front(later));
    PushTakes(b, Front(later));
    PushOfNothing(b);
    ScanContinues(b, later);
    Associative(FromUtf8(b).text, FromUtf8(Kept(b) + later).text, Lossy(Kept(b + later)));
  }

  /** While only the last byte shows that something is malformed, a stream decodes as in one chunk. */
  lemma {:induction false} LastByteDecides(residual: seq<Byte>, chunks: seq<seq<Byte>>)
    requires chunks != [] && NonEmpty(chunks) && Malformations(Front(residual + Flatten(chunks))) == 0
    ensures Decoded(residual, chunks) == Whole(residual + Flatten(chunks))
    decreases |chunks|
  {
    var b, more := residual + chunks[0], chunks[1..];
    DecodedNext(residual, chunks);
    if more == [] {
      assert Flatten(chunks) == chunks[0];
      assert Decoded(Kept(b), more) == Lossy(Kept(b));
    } else {
      Associative(residual, chunks[0], Flatten(more));
      assert Flatten(more) != [] by {
        assert more[0] == chunks[1];
      }
      FirstOfMany(b, Flatten(more));
      LastByteDecides(Kept(b), more);
    }
  }

  /** A malformed sequence that shows before the last byte, and another one: the last byte alone decides differently. */
  lemma LastByteApart(b: seq<Byte>)
    requires Malformations(b) > 1 && Malformations(Front(b)) > 0
    ensures Decoded([], [Front(b), b[|b| - 1..]]) != Whole(b)
  {
    assert b == Front(b) + b[|b| - 1..];
    TwoChunks(Front(b), b[|b| - 1..]);
    SecondPushSkips(Front(b), b[|b| - 1..]);
  }

  /** The second push skips one more malformed sequence. */
  lemma SecondPushSkips(first: seq<Byte>, second: seq<Byte>)
    requires Malformations(first + second) > 1 && Malformations(first) > 0
    ensures |FromUtf8(first).text| + |Whole(Kept(first) + second)| < |Whole(first + second)|
  {
    WholeLength(Kept(first) + second);
    WholeLength(first + second);
    PushTakes(first, second);
    PushOfNothing(first);
  }

  /** Of the malformed sequences, one chunk replaces all but the first. */
  lemma WholeLength(b: seq<Byte>)
    ensures |Whole(b)| == |Skipped(b)| + Malformations(b) - if Malformations(b) == 0 then 0 else 1
  {
    PushOfNothing(b);
    FlushReplaces(Kept(b));
  }

  lemma LoneChunk(residual: seq<Byte>, chunk: seq<Byte>)
    ensures Decoded(residual, [chunk]) == Whole(residual + chunk)
  {
    var lone: seq<seq<Byte>> := [chunk];
    DecodedNext(residual, lone);
    assert lone[1..] == [] && Decoded(Kept(residual + chunk), lone[1..]) == Lossy(Kept(residual + chunk));
  }

  lemma TwoChunks(first: seq<Byte>, second: seq<Byte>)
    ensures Decoded([], [first, second]) == FromUtf8(first).text + Whole(Kept(first) + second)
  {
    FirstChunk(first, [second]);
    LoneChunk(Kept(first), second);
    assert [first] + [second] == [first, second];
  }

  lemma LastByteCut(b: seq<Byte>)
    requires |b| > 1
    ensures var chunks := [Front(b), b[|b| - 1..]];
      NonEmpty(chunks) && Flatten(chunks) == b
  {
    var chunks := [Front(b), b[|b| - 1..]];
    OneChunk(b[|b| - 1..]);
    assert chunks[1..] == [b[|b| - 1..]];
    assert Front(b) + b[|b| - 1..] == b;
  }

  /**
   * Cut into chunks of at least one byte, the text of a stream is independent of the chunks exactly if at most one
   * sequence in it is malformed, or if only its last byte shows that any sequence is.
   */
  lemma NonEmptyChunksDoNotMatterExactlyWhen(b: seq<Byte>)
    ensures (forall chunks: seq<seq<Byte>> | NonEmpty(chunks) && Flatten(chunks) == b ::
               Decoded([], chunks) == Decoded([], [b]))
      <==> Malformations(b) <= 1 || Malformations(Front(b)) == 0
  {
    OneChunk(b);
    if Malformations(b) <= 1 {
      ChunksDoNotMatterExactlyWhen(b);
    } else if Malformations(Front(b)) == 0 {
      forall chunks: seq<seq<Byte>> | NonEmpty(chunks) && Flatten(chunks) == b
        ensures Decoded([], chunks) == Decoded([], [b])
      {
        assert [] + Flatten(chunks) == b;
        LastByteDecides([], chunks);
      }
    } else {
      LastByteApart(b);
      LastByteCut(b);
    }
  }

  /** Part of a character and a byte that cannot follow it: two malformed sequences that only the last byte shows. */
  lemma LastByteShowsTwo()
    ensures Malformations([0xE0, 0xFF]) == 2 && Malformations(Front([0xE0, 0xFF])) == 0
  {
    var b, tail: seq<Byte> := [0xE0, 0xFF], [0xFF];
    assert b[1..] == tail && tail[1..] == [] && Front(b) == [0xE0];
  }

  /** Two malformed bytes and a letter: in one chunk the second byte is replaced, byte by byte it is left out. */
  lemma SecondMalformedDependsOnChunks()
    ensures Decoded([], [[0xFF, 0xFF, 0x61]]) == [REPLACEMENT, 'a']
    ensures Decoded([], [[0xFF], [0xFF], [0x61]]) == ['a']
  {
    LetterAlone();
    SecondIsReplaced();
    var bad, letter: seq<Byte> := [0xFF], [0x61];
    MalformedChunk([bad, letter]);
    MalformedChunk([letter]);
    assert [bad] + [bad, letter] == [bad, bad, letter] && [bad] + [letter] == [bad, letter];
  }

  lemma LetterAlone()
    ensures Lossy([0x61]) == ['a'] && Decoded([], [[0x61]]) == ['a']
  {
    var letter: seq<Byte> := [0x61];
    assert letter[1..] == [];
    OneChunk(letter);
  }

  lemma SecondIsReplaced()
    ensures Decoded([], [[0xFF, 0xFF, 0x61]]) == [REPLACEMENT, 'a']
  {
    var b, tail: seq<Byte> := [0xFF, 0xFF, 0x61], [0xFF, 0x61];
    assert b[1..] == tail && tail[1..] == [0x61];
    LetterAlone();
    OneChunk(b);
  }

  lemma MalformedChunk(more: seq<seq<Byte>>)
    ensures Decoded([], [[0xFF]] + more) == Decoded([], more)
  {
    var bad: seq<Byte> := [0xFF];
    assert bad[1..] == [];
    FirstChunk(bad, more);
  }
}
