/**
 Reading a request body in the chunked transfer coding of section 7.1 of RFC 9112.

 `Decode` is the reader as a function of the bytes that remain; method `ReadChunked` is the loop
 over a consumed stream. The size line is parsed as Python's int(text, 16) does: surrounding
 whitespace, a sign, a 0x prefix and single underscores between digits are accepted.
 */
module ChunkedBody {
  import opened Collections
  import opened Wrappers

  newtype byte = x: int | 0 <= x < 256

  type Bytes = seq<byte>

  const CR: byte := 13
  const LF: byte := 10
  const CRLF: Bytes := [CR, LF]
  const SEMICOLON: byte := 59
  const UNDERSCORE: byte := 95
  const SIZE_LINE_LIMIT := 128
  const TRAILER_LINE_LIMIT := 8192

  datatype BodyError = IncompleteBody | InvalidChunkSize | TooLarge | InvalidTerminator

  // ---------- Stream operations ----------

  function Take(s: Bytes, n: nat): Bytes {
    if n <= |s| then s[..n] else s
  }

  function Drop(s: Bytes, n: nat): Bytes {
    if n <= |s| then s[n..] else []
  }

  /** Bytes up to and including the first line feed, or all of them. */
  function LineLength(s: Bytes): (n: nat)
    ensures n <= |s| && (s != [] ==> n > 0)
  {
    if s == [] then 0 else if s[0] == LF then 1 else 1 + LineLength(s[1..])
  }

  function LineSize(s: Bytes, limit: nat): (n: nat)
    ensures n <= |s| && n <= limit && (s != [] && limit > 0 ==> n > 0)
  {
    if LineLength(s) <= limit then LineLength(s) else limit
  }

  class ByteStream {
    var rest: Bytes

    constructor (bytes: Bytes)
      ensures rest == bytes
    {
      rest := bytes;
    }

    method Read(n: nat) returns (r: Bytes)
      modifies this
      ensures r == Take(old(rest), n) && rest == Drop(old(rest), n)
    {
      r := Take(rest, n);
      rest := Drop(rest, n);
    }

    method ReadLine(limit: nat) returns (r: Bytes)
      modifies this
      ensures r == old(rest)[..LineSize(old(rest), limit)] && rest == old(rest)[LineSize(old(rest), limit)..]
    {
      var n := LineSize(rest, limit);
      r := rest[..n];
      rest := rest[n..];
    }
  }

  // ---------- The size line ----------

  predicate IsSpace(b: byte) {
    b == 32 || 9 <= b <= 13
  }

  function StripLeft(s: Bytes): Bytes {
    if s != [] && IsSpace(s[0]) then StripLeft(s[1..]) else s
  }

  function StripRight(s: Bytes): Bytes {
    if s != [] && IsSpace(s[|s| - 1]) then StripRight(s[..|s| - 1]) else s
  }

  function Strip(s: Bytes): Bytes {
    StripRight(StripLeft(s))
  }

  function BeforeSemicolon(s: Bytes): Bytes {
    if s == [] || s[0] == SEMICOLON then [] else [s[0]] + BeforeSemicolon(s[1..])
  }

  function DigitValue(b: byte): Option<nat> {
    if 48 <= b <= 57 then Some(b as int - 48)
    else if 97 <= b <= 102 then Some(b as int - 87)
    else if 65 <= b <= 70 then Some(b as int - 55)
    else None
  }

  /** Hexadecimal digits with single underscores between them. */
  function ParseDigits(s: Bytes, acc: nat, afterDigit: bool): Option<nat> {
    if s == [] then (if afterDigit then Some(acc) else None)
    else if s[0] == UNDERSCORE then (if afterDigit then ParseDigits(s[1..], acc, false) else None)
    else match DigitValue(s[0])
      case None => None
      case Some(d) => ParseDigits(s[1..], 16 * acc + d, true)
  }

  predicate HasPrefix(s: Bytes) {
    |s| >= 2 && s[0] == 48 && (s[1] == 120 || s[1] == 88)
  }

  function ParseUnsigned(s: Bytes): Option<nat> {
    if HasPrefix(s) then ParseDigits(if |s| > 2 && s[2] == UNDERSCORE then s[3..] else s[2..], 0, false)
    else ParseDigits(s, 0, false)
  }

  function Signed(n: Option<nat>, sign: int): Option<int> {
    match n
    case None => None
    case Some(value) => Some(sign * value)
  }

  function ParseInt16(s: Bytes): Option<int> {
    if s != [] && s[0] == 45 then Signed(ParseUnsigned(s[1..]), -1)
    else if s != [] && s[0] == 43 then Signed(ParseUnsigned(s[1..]), 1)
    else Signed(ParseUnsigned(s), 1)
  }

  function ChunkSize(line: Bytes): Option<int> {
    ParseInt16(Strip(BeforeSemicolon(line)))
  }

  // ---------- The decoder ----------

  function SkipTrailers(rest: Bytes): Bytes
    decreases |rest|
  {
    var n := LineSize(rest, TRAILER_LINE_LIMIT);
    var line, more := rest[..n], rest[n..];
    if line == [] || line == CRLF || line == [LF] then more else SkipTrailers(more)
  }

  /** The answer and the bytes left in the stream. */
  datatype Outcome = Outcome(answer: Result<Bytes, BodyError>, rest: Bytes)

  function Decode(rest: Bytes, body: Bytes, maxBytes: int): Outcome
    decreases |rest|
  {
    var n := LineSize(rest, SIZE_LINE_LIMIT);
    var line, after := rest[..n], rest[n..];
    if line == [] then Outcome(Err(IncompleteBody), after)
    else match ChunkSize(line)
      case None => Outcome(Err(InvalidChunkSize), after)
      case Some(size) =>
        if size < 0 then Outcome(Err(InvalidChunkSize), after)
        else if size == 0 then Outcome(Ok(body), SkipTrailers(after))
        else if |body| + size > maxBytes then Outcome(Err(TooLarge), after)
        else if |after| < size then Outcome(Err(IncompleteBody), [])
        else
          var tail := after[size..];
          if Take(tail, 2) != CRLF then Outcome(Err(InvalidTerminator), Drop(tail, 2))
          else Decode(Drop(tail, 2), body + after[..size], maxBytes)
  }

  method ReadTrailers(stream: ByteStream)
    modifies stream
    ensures stream.rest == SkipTrailers(old(stream.rest))
  {
    while true
      invariant SkipTrailers(stream.rest) == SkipTrailers(old(stream.rest))
      decreases |stream.rest|
    {
      var line := stream.ReadLine(TRAILER_LINE_LIMIT);
      if line == [] || line == CRLF || line == [LF] {
        return;
      }
    }
  }

  method ReadChunked(stream: ByteStream, maxBytes: int) returns (r: Result<Bytes, BodyError>)
    modifies stream
    ensures Outcome(r, stream.rest) == Decode(old(stream.rest), [], maxBytes)
  {
    var body: Bytes := [];
    while true
      invariant Decode(stream.rest, body, maxBytes) == Decode(old(stream.rest), [], maxBytes)
      decreases |stream.rest|
    {
      var line := stream.ReadLine(SIZE_LINE_LIMIT);
      if line == [] {
        return Err(IncompleteBody);
      }
      var parsed := ChunkSize(line);
      if parsed == None {
        return Err(InvalidChunkSize);
      }
      var size := parsed.value;
      if size < 0 {
        return Err(InvalidChunkSize);
      }
      if size == 0 {
        ReadTrailers(stream);
        return Ok(body);
      }
      if |body| + size > maxBytes {
        return Err(TooLarge);
      }
      var chunk := stream.Read(size);
      if |chunk| != size {
        return Err(IncompleteBody);
      }
      body := body + chunk;
      var terminator := stream.Read(2);
      if terminator != CRLF {
        return Err(InvalidTerminator);
      }
    }
  }

  /** No body longer than the limit is ever returned. */
  lemma {:induction false} NeverExceedsLimit(rest: Bytes, body: Bytes, maxBytes: int)
    requires |body| <= maxBytes || body == []
    ensures var o := Decode(rest, body, maxBytes); o.answer.Ok? ==> |o.answer.value| <= maxBytes || o.answer.value == []
    decreases |rest|
  {
    var n := LineSize(rest, SIZE_LINE_LIMIT);
    var line, after := rest[..n], rest[n..];
    if line != [] && ChunkSize(line).Some? {
      var size := ChunkSize(line).value;
      if 0 < size <= |after| && |body| + size <= maxBytes && Take(after[size..], 2) == CRLF {
        NeverExceedsLimit(Drop(after[size..], 2), body + after[..size], maxBytes);
      }
    }
  }

  // ---------- The encoder ----------

  function DigitByte(d: nat): byte
    requires d < 16
  {
    if d < 10 then (48 + d) as byte else (87 + d) as byte
  }

  /** Lower-case hexadecimal without leading zeros. */
  function Hex(n: nat): (s: Bytes)
    ensures s != []
  {
    if n < 16 then [DigitByte(n)] else Hex(n / 16) + [DigitByte(n % 16)]
  }

  function EncodeChunk(data: Bytes): Bytes {
    Hex(|data|) + CRLF + data + CRLF
  }

  const LAST_CHUNK: Bytes := [48, CR, LF, CR, LF]

  function Encode(chunks: seq<Bytes>): Bytes {
    if chunks == [] then LAST_CHUNK else EncodeChunk(chunks[0]) + Encode(chunks[1..])
  }

  function Flatten(chunks: seq<Bytes>): Bytes {
    if chunks == [] then [] else chunks[0] + Flatten(chunks[1..])
  }

  /** A canonical chunk: not empty, with a size line that fits the reader's line limit. */
  predicate Canonical(data: Bytes) {
    data != [] && |Hex(|data|)| + 2 <= SIZE_LINE_LIMIT
  }

  // ---------- Size lines are read back ----------

  predicate AllHex(s: Bytes) {
    forall i :: 0 <= i < |s| ==> DigitValue(s[i]).Some?
  }

  lemma {:induction false} ParseDigitsOfHex(s: Bytes, t: Bytes, acc: nat, afterDigit: bool)
    requires AllHex(s) && s != []
    ensures ParseDigits(s, acc, afterDigit).Some?
    ensures ParseDigits(s + t, acc, afterDigit) == ParseDigits(t, ParseDigits(s, acc, afterDigit).value, true)
  {
    assert (s + t)[1..] == s[1..] + t;
    var d := DigitValue(s[0]).value;
    if |s| > 1 {
      ParseDigitsOfHex(s[1..], t, 16 * acc + d, true);
    } else {
      assert s[1..] + t == t;
    }
  }

  lemma {:induction false} HexIsRead(n: nat)
    ensures AllHex(Hex(n)) && ParseDigits(Hex(n), 0, false) == Some(n)
    ensures n > 0 ==> Hex(n)[0] != 48
  {
    if n < 16 {
      assert Hex(n)[1..] == [];
    } else {
      HexIsRead(n / 16);
      var last := [DigitByte(n % 16)];
      ParseDigitsOfHex(Hex(n / 16), last, 0, false);
      assert last[1..] == [];
      assert ParseDigits(last, n / 16, true) == ParseDigits([], 16 * (n / 16) + n % 16, true);
    }
  }

  /** Digits whose first one is not zero denote a positive number. */
  lemma {:induction false} PositiveDigits(s: Bytes, acc: nat, afterDigit: bool)
    requires AllHex(s) && s != [] && (acc > 0 || DigitValue(s[0]).value > 0)
    ensures ParseDigits(s, acc, afterDigit).Some? && ParseDigits(s, acc, afterDigit).value > 0
  {
    if |s| > 1 {
      PositiveDigits(s[1..], 16 * acc + DigitValue(s[0]).value, true);
    } else {
      assert s[1..] == [];
    }
  }

  lemma {:induction false} NoSemicolon(s: Bytes)
    requires forall i :: 0 <= i < |s| ==> s[i] != SEMICOLON
    ensures BeforeSemicolon(s) == s
  {
    if s != [] {
      NoSemicolon(s[1..]);
    }
  }

  lemma StripOne(s: Bytes, b: byte)
    requires IsSpace(b)
    ensures StripRight(s + [b]) == StripRight(s)
  {
    assert (s + [b])[..|s|] == s;
  }

  /** Whitespace after the digits is ignored. */
  lemma StripAfterDigits(s: Bytes, tail: Bytes)
    requires AllHex(s) && s != [] && (tail == [] || tail == [CR] || tail == CRLF)
    ensures Strip(s + tail) == s
  {
    assert !IsSpace((s + tail)[0]) && !IsSpace(s[|s| - 1]);
    assert s + [] == s && s + CRLF == (s + [CR]) + [LF];
    StripOne(s, CR);
    StripOne(s + [CR], LF);
  }

  /** Digits with a nonzero first digit are read as their value, with or without the line ending. */
  lemma DigitsGiveSize(s: Bytes, tail: Bytes)
    requires AllHex(s) && s != [] && s[0] != 48 && (tail == [] || tail == [CR] || tail == CRLF)
    ensures ParseDigits(s, 0, false).Some? && ChunkSize(s + tail) == Some(ParseDigits(s, 0, false).value)
  {
    NoSemicolon(s + tail);
    StripAfterDigits(s, tail);
    ParseDigitsOfHex(s, [], 0, false);
  }

  lemma {:induction false} LineOf(s: Bytes, more: Bytes)
    requires forall i :: 0 <= i < |s| ==> s[i] != LF
    ensures LineLength(s + [LF] + more) == |s| + 1
    ensures LineLength(s) == |s|
  {
    if s != [] {
      LineOf(s[1..], more);
      assert (s + [LF] + more)[1..] == s[1..] + [LF] + more;
    } else {
      assert s + [LF] + more == [LF] + more;
    }
  }

  // ---------- Decoding inverts encoding ----------

  /** The parts of a message that starts with a canonical chunk: size line, data, terminator, the rest. */
  lemma ChunkParts(data: Bytes, more: Bytes)
    requires Canonical(data)
    ensures var rest := EncodeChunk(data) + more;
            var n := LineSize(rest, SIZE_LINE_LIMIT);
            var after := rest[n..];
            && rest != [] && rest[..n] == Hex(|data|) + CRLF && ChunkSize(rest[..n]) == Some(|data|) && |data| > 0
            && |after| >= |data| + 2 && after[..|data|] == data
            && after[|data|..][..2] == CRLF && after[|data|..][2..] == more
  {
    var hex := Hex(|data|);
    HexIsRead(|data|);
    DigitsGiveSize(hex, CRLF);
    ChunkShape(data, more);
    var after := data + (CRLF + more);
    LineOf(hex + [CR], after);
    assert (hex + [CR]) + [LF] == hex + CRLF;
    Halves(hex + CRLF, after);
    Halves(data, CRLF + more);
    Halves(CRLF, more);
  }

  lemma ChunkShape(data: Bytes, more: Bytes)
    ensures EncodeChunk(data) + more == (Hex(|data|) + CRLF) + (data + (CRLF + more))
  {
    Associate(Hex(|data|) + CRLF, data, CRLF);
    Associate(Hex(|data|) + CRLF, data + CRLF, more);
    Associate(data, CRLF, more);
  }

  /** One canonical chunk is consumed exactly and its data appended. */
  lemma DecodeChunk(data: Bytes, more: Bytes, body: Bytes, maxBytes: int)
    requires Canonical(data) && |body| + |data| <= maxBytes
    ensures Decode(EncodeChunk(data) + more, body, maxBytes) == Decode(more, body + data, maxBytes)
  {
    ChunkParts(data, more);
  }

  lemma DecodeLast(rest: Bytes, body: Bytes, maxBytes: int)
    ensures Decode(LAST_CHUNK + rest, body, maxBytes) == Outcome(Ok(body), rest)
  {
    var all := LAST_CHUNK + rest;
    LineOf([48, CR], CRLF + rest);
    assert all == [48, CR] + [LF] + (CRLF + rest);
    assert all[..3] == [48, CR, LF] && all[3..] == CRLF + rest;
    assert ChunkSize([48, CR, LF]) == Some(0) by {
      NoSemicolon([48, CR, LF]);
      StripAfterDigits([48], CRLF);
      assert [48] + CRLF == [48, CR, LF];
      assert ParseDigits([48], 0, false) == ParseDigits([], 0, true);
    }
    LineOf([CR], rest);
    assert CRLF + rest == [CR] + [LF] + rest;
    assert (CRLF + rest)[..2] == CRLF && (CRLF + rest)[2..] == rest;
  }

  /** For any canonical chunks within the limit, decoding the message returns their concatenation and
      leaves exactly the bytes that follow the message. */
  lemma {:induction false} DecodeInvertsEncode(chunks: seq<Bytes>, rest: Bytes, body: Bytes, maxBytes: int)
    requires forall c <- chunks :: Canonical(c)
    requires |body| + |Flatten(chunks)| <= maxBytes
    ensures Decode(Encode(chunks) + rest, body, maxBytes) == Outcome(Ok(body + Flatten(chunks)), rest)
    decreases |chunks|
  {
    if chunks == [] {
      DecodeLast(rest, body, maxBytes);
      assert body + [] == body;
    } else {
      var data, others := chunks[0], chunks[1..];
      Associate(EncodeChunk(data), Encode(others), rest);
      DecodeChunk(data, Encode(others) + rest, body, maxBytes);
      DecodeInvertsEncode(others, rest, body + data, maxBytes);
      Associate(body, data, Flatten(others));
    }
  }

  // ---------- Truncated messages ----------

  lemma CutSizeLineRejected(digits: Bytes, tail: Bytes, body: Bytes, maxBytes: int)
    requires AllHex(digits) && digits != [] && digits[0] != 48 && (tail == [] || tail == [CR])
    requires |digits| + |tail| <= SIZE_LINE_LIMIT
    ensures Decode(digits + tail, body, maxBytes).answer.Err?
  {
    var rest := digits + tail;
    LineOf(rest, []);
    assert rest[..|rest|] == rest && rest[|rest|..] == [];
    DigitsGiveSize(digits, tail);
    PositiveDigits(digits, 0, false);
  }

  /** The size line is whole; the data or its terminator is not. */
  lemma CutDataRejected(data: Bytes, after: Bytes, body: Bytes, maxBytes: int)
    requires Canonical(data) && |after| < |data| + 2 && after <= data + CRLF
    ensures Decode(Hex(|data|) + CRLF + after, body, maxBytes).answer.Err?
  {
    var hex := Hex(|data|);
    var rest := hex + CRLF + after;
    HexIsRead(|data|);
    LineOf(hex + [CR], after);
    assert rest == (hex + [CR]) + [LF] + after;
    assert rest[..|hex| + 2] == hex + CRLF && rest[|hex| + 2..] == after;
    DigitsGiveSize(hex, CRLF);
  }

  /** A chunk cut short anywhere is rejected. */
  lemma CutChunkRejected(data: Bytes, cut: nat, body: Bytes, maxBytes: int)
    requires Canonical(data) && cut < |EncodeChunk(data)|
    ensures Decode(EncodeChunk(data)[..cut], body, maxBytes).answer.Err?
  {
    var hex := Hex(|data|);
    var rest := EncodeChunk(data)[..cut];
    HexIsRead(|data|);
    if cut == 0 {
      assert rest == [];
    } else if cut <= |hex| {
      assert rest == hex[..cut] + [];
      CutSizeLineRejected(hex[..cut], [], body, maxBytes);
    } else if cut == |hex| + 1 {
      assert rest == hex + [CR];
      CutSizeLineRejected(hex, [CR], body, maxBytes);
    } else {
      var after := (data + CRLF)[..cut - |hex| - 2];
      assert rest == hex + CRLF + after;
      CutDataRejected(data, after, body, maxBytes);
    }
  }

  lemma CutLastChunk(cut: nat, body: Bytes, maxBytes: int)
    requires cut < |LAST_CHUNK|
    ensures var answer := Decode(LAST_CHUNK[..cut], body, maxBytes).answer; answer.Err? || answer == Ok(body)
  {
    var rest := LAST_CHUNK[..cut];
    if cut > 0 {
      var tail := if cut == 1 then [] else if cut == 2 then [CR] else CRLF;
      var n := LineSize(rest, SIZE_LINE_LIMIT);
      var line := [48] + tail;
      assert rest[..n] == line by {
        if cut <= 2 {
          assert rest == line;
          LineOf(line, []);
        } else {
          LineOf([48, CR], rest[3..]);
          assert rest == [48, CR] + [LF] + rest[3..];
          assert line == rest[..3];
        }
      }
      assert ChunkSize(line) == Some(0) by {
        NoSemicolon(line);
        StripAfterDigits([48], tail);
        assert ParseDigits([48], 0, false) == ParseDigits([], 0, true);
      }
    }
  }

  lemma CutOfConcat(first: Bytes, rest: Bytes, cut: nat)
    requires cut <= |first| + |rest|
    ensures (first + rest)[..cut] == if cut < |first| then first[..cut] else first + rest[..cut - |first|]
  {
  }

  /** A cut inside the first chunk is rejected; after it, the rest decides. */
  lemma CutOfChunks(data: Bytes, rest: Bytes, cut: nat, body: Bytes, maxBytes: int)
    requires Canonical(data) && |body| + |data| <= maxBytes && cut <= |EncodeChunk(data)| + |rest|
    ensures var first := EncodeChunk(data);
            var answer := Decode((first + rest)[..cut], body, maxBytes).answer;
            if cut < |first| then answer.Err? else answer == Decode(rest[..cut - |first|], body + data, maxBytes).answer
  {
    var first := EncodeChunk(data);
    CutOfConcat(first, rest, cut);
    if cut < |first| {
      CutChunkRejected(data, cut, body, maxBytes);
    } else {
      DecodeChunk(data, rest[..cut - |first|], body, maxBytes);
    }
  }

  /** Any strict prefix of a canonical message is rejected or decodes to the same full body: a
      truncated request is never mistaken for a shorter one. */
  lemma {:induction false} PrefixNeverDecodesShorter(chunks: seq<Bytes>, cut: nat, body: Bytes, maxBytes: int)
    requires forall c <- chunks :: Canonical(c)
    requires |body| + |Flatten(chunks)| <= maxBytes
    requires cut < |Encode(chunks)|
    ensures var answer := Decode(Encode(chunks)[..cut], body, maxBytes).answer;
            answer.Err? || answer == Ok(body + Flatten(chunks))
    decreases |chunks|
  {
    if chunks == [] {
      CutLastChunk(cut, body, maxBytes);
      assert body + [] == body;
    } else {
      var data, others := chunks[0], chunks[1..];
      CutOfChunks(data, Encode(others), cut, body, maxBytes);
      if cut >= |EncodeChunk(data)| {
        PrefixNeverDecodesShorter(others, cut - |EncodeChunk(data)|, body + data, maxBytes);
        Associate(body, data, Flatten(others));
      }
    }
  }
}
