/** The Base64 of section 4 of RFC 4648, as the signer protocol uses it. */
module Base64 {
  import opened Prelude

  type byte = n: int | 0 <= n < 256
  type sextet = n: int | 0 <= n < 64

  datatype Base64Error = InvalidBase64

  /** The table of letters: A to Z, a to z, 0 to 9, plus and slash. */
  function Letter(n: sextet): char {
    if n < 26 then ('A' as int + n) as char
    else if n < 52 then ('a' as int + (n - 26)) as char
    else if n < 62 then ('0' as int + (n - 52)) as char
    else if n == 62 then '+'
    else '/'
  }

  /** `base64_value`. */
  function Sextet(c: char): Option<sextet> {
    if 'A' <= c <= 'Z' then Some(c as int - 'A' as int)
    else if 'a' <= c <= 'z' then Some(c as int - 'a' as int + 26)
    else if '0' <= c <= '9' then Some(c as int - '0' as int + 52)
    else if c == '+' then Some(62)
    else if c == '/' then Some(63)
    else None
  }

  /** The value of up to three bytes as 24 bits, missing ones zero. */
  function Group(bytes: seq<byte>): int
    requires 1 <= |bytes| <= 3
  {
    var first: int, second: int, third: int :=
      bytes[0], if |bytes| > 1 then bytes[1] else 0, if |bytes| > 2 then bytes[2] else 0;
    first * 0x1_0000 + second * 0x100 + third
  }

  /** The four characters for a chunk of input. */
  function EncodeChunk(bytes: seq<byte>): (text: string)
    requires 1 <= |bytes| <= 3
    ensures |text| == 4
  {
    var value := Group(bytes);
    [Letter(value / 0x4_0000 % 0x40), Letter(value / 0x1000 % 0x40),
     if |bytes| > 1 then Letter(value / 0x40 % 0x40) else '=',
     if |bytes| > 2 then Letter(value % 0x40) else '=']
  }

  /** `base64_encode`. */
  function Encode(input: seq<byte>): string {
    if input == [] then ""
    else if |input| <= 3 then EncodeChunk(input)
    else EncodeChunk(input[..3]) + Encode(input[3..])
  }

  predicate IsAsciiWhiteSpace(c: char) {
    c == ' ' || c == '\t' || c == '\n' || c == '\U{000C}' || c == '\r'
  }

  function Cleaned(text: string): string {
    if text == "" then ""
    else Cleaned(text[..|text| - 1]) + (if IsAsciiWhiteSpace(text[|text| - 1]) then "" else [text[|text| - 1]])
  }

  /** A padding character counts as zero, wherever it stands. */
  function Digit(c: char): Option<sextet> {
    if c == '=' then Some(0) else Sextet(c)
  }

  function Padding(chunk: string): nat {
    if chunk == "" then 0 else Padding(chunk[..|chunk| - 1]) + (if chunk[|chunk| - 1] == '=' then 1 else 0)
  }

  /** Four times six bits. */
  function Joined(a: int, b: int, c: int, d: int): int {
    a * 0x4_0000 + b * 0x1000 + c * 0x40 + d
  }

  /** The bytes of four characters. */
  function DecodeChunk(chunk: string): Option<seq<byte>>
    requires |chunk| == 4
  {
    match (Digit(chunk[0]), Digit(chunk[1]), Digit(chunk[2]), Digit(chunk[3]))
    case (Some(a), Some(b), Some(c), Some(d)) =>
      var value := Joined(a, b, c, d);
      Some([value / 0x1_0000 % 0x100]
           + (if Padding(chunk) < 2 then [value / 0x100 % 0x100] else [])
           + (if Padding(chunk) == 0 then [value % 0x100] else []))
    case _ => None
  }

  function DecodeChunks(text: string): Option<seq<byte>> {
    if text == "" then Some([])
    else if |text| < 4 then None
    else match DecodeChunk(text[..4])
      case Some(bytes) => Prefixed(bytes, DecodeChunks(text[4..]))
      case None => None
  }

  function Prefixed(bytes: seq<byte>, rest: Option<seq<byte>>): Option<seq<byte>> {
    match rest
    case Some(more) => Some(bytes + more)
    case None => None
  }

  /** `base64_decode`. */
  function Decode(text: string): Result<seq<byte>, Base64Error> {
    var cleaned := Cleaned(text);
    if cleaned == "" || |cleaned| % 4 != 0 then Err(InvalidBase64)
    else match DecodeChunks(cleaned)
      case Some(bytes) => Ok(bytes)
      case None => Err(InvalidBase64)
  }

  // ---- The loops ----

  method Base64Encode(input: seq<byte>) returns (output: string)
    ensures output == Encode(input)
  {
    hide EncodeChunk;
    output := "";
    var i := 0;
    while i < |input|
      invariant 0 <= i <= |input|
      invariant output + Encode(input[i..]) == Encode(input)
    {
      var n := if i + 3 <= |input| then 3 else |input| - i;
      var chunk := input[i..i + n];
      assert input[i..][..n] == chunk && input[i..][n..] == input[i + n..];
      EncodeStep(input[i..], n);
      output := output + EncodeChunk(chunk);
      i := i + n;
    }
    assert input[i..] == [];
  }

  lemma EncodeStep(input: seq<byte>, n: nat)
    requires input != [] && n == if |input| >= 3 then 3 else |input|
    ensures Encode(input) == EncodeChunk(input[..n]) + Encode(input[n..])
  {
    hide EncodeChunk;
    if |input| <= 3 { assert input[..n] == input && input[n..] == []; }
  }

  method Base64Decode(text: string) returns (r: Result<seq<byte>, Base64Error>)
    ensures r == Decode(text)
  {
    hide DecodeChunk, Digit, Prefixed;
    var cleaned := "";
    var i := 0;
    while i < |text|
      invariant 0 <= i <= |text| && cleaned == Cleaned(text[..i])
    {
      assert text[..i + 1][..i] == text[..i];
      if !IsAsciiWhiteSpace(text[i]) { cleaned := cleaned + [text[i]]; }
      i := i + 1;
    }
    assert text[..i] == text;
    if cleaned == "" || |cleaned| % 4 != 0 { return Err(InvalidBase64); }
    var output: seq<byte> := [];
    i := 0;
    assert cleaned[i..] == cleaned;
    NothingPrefixed(DecodeChunks(cleaned));
    while i < |cleaned|
      invariant 0 <= i <= |cleaned| && i % 4 == 0
      invariant DecodeChunks(cleaned) == Prefixed(output, DecodeChunks(cleaned[i..]))
    {
      assert cleaned[i..][..4] == cleaned[i..i + 4] && cleaned[i..][4..] == cleaned[i + 4..];
      var bytes := DecodeFour(cleaned[i..i + 4]);
      if bytes.None? {
        NotPrefixed(output);
        return Err(InvalidBase64);
      }
      PrefixedTwice(output, bytes.value, DecodeChunks(cleaned[i + 4..]));
      output := output + bytes.value;
      i := i + 4;
    }
    assert cleaned[i..] == "";
    PrefixedToNothing(output);
    return Ok(output);
  }

  lemma NothingPrefixed(rest: Option<seq<byte>>)
    ensures Prefixed([], rest) == rest
  {
    if rest.Some? { assert [] + rest.value == rest.value; }
  }

  lemma PrefixedToNothing(bytes: seq<byte>)
    ensures Prefixed(bytes, Some([])) == Some(bytes)
  {
    assert bytes + [] == bytes;
  }

  lemma NotPrefixed(bytes: seq<byte>)
    ensures Prefixed(bytes, None) == None
  {}

  lemma PrefixedTwice(a: seq<byte>, b: seq<byte>, rest: Option<seq<byte>>)
    ensures Prefixed(a, Prefixed(b, rest)) == Prefixed(a + b, rest)
  {
    if rest.Some? { assert a + (b + rest.value) == (a + b) + rest.value; }
  }

  /** One turn of the loop over the chunks. */
  method DecodeFour(chunk: string) returns (bytes: Option<seq<byte>>)
    requires |chunk| == 4
    ensures bytes == DecodeChunk(chunk)
  {
    hide Sextet;
    var values := new sextet[4];
    var padding := 0;
    var index := 0;
    while index < 4
      invariant 0 <= index <= 4 && padding == Padding(chunk[..index])
      invariant forall k | 0 <= k < index :: Digit(chunk[k]) == Some(values[k])
    {
      assert chunk[..index + 1][..index] == chunk[..index];
      if chunk[index] == '=' {
        padding := padding + 1;
        values[index] := 0;
      } else {
        var value := Sextet(chunk[index]);
        if value.None? { return None; }
        values[index] := value.value;
      }
      index := index + 1;
    }
    assert chunk[..4] == chunk;
    var value := Joined(values[0], values[1], values[2], values[3]);
    var output: seq<byte> := [value / 0x1_0000 % 0x100];
    if padding < 2 { output := output + [value / 0x100 % 0x100]; }
    if padding == 0 { output := output + [value % 0x100]; }
    assert Digit(chunk[0]) == Some(values[0]) && Digit(chunk[1]) == Some(values[1]);
    assert Digit(chunk[2]) == Some(values[2]) && Digit(chunk[3]) == Some(values[3]);
    assert output == [value / 0x1_0000 % 0x100] + (if padding < 2 then [value / 0x100 % 0x100] else [])
                     + (if padding == 0 then [value % 0x100] else []);
    return Some(output);
  }

  // ---- What the code means ----

  /** Every letter stands for its six bits. */
  lemma LetterSextet(n: sextet)
    ensures Sextet(Letter(n)) == Some(n) && Letter(n) != '=' && !IsAsciiWhiteSpace(Letter(n))
  {
  }

  /** The characters of a chunk hold its 24 bits as four times six, padding where bytes are missing. */
  lemma ChunkHoldsBits(bytes: seq<byte>)
    requires 1 <= |bytes| <= 3
    ensures var text := EncodeChunk(bytes);
      && (forall i | 0 <= i < 4 :: Digit(text[i]).Some? && !IsAsciiWhiteSpace(text[i]) && (text[i] == '=' <==> i > |bytes|))
      && Joined(Digit(text[0]).value, Digit(text[1]).value, Digit(text[2]).value, Digit(text[3]).value) == Group(bytes)
  {
    hide Sextet, Letter;
    var value := Group(bytes);
    LetterSextet(value / 0x4_0000 % 0x40);
    LetterSextet(value / 0x1000 % 0x40);
    LetterSextet(value / 0x40 % 0x40);
    LetterSextet(value % 0x40);
    GroupBits(bytes);
  }

  /** Three bytes out of their 24 bits. */
  lemma BytesOut(first: int, second: int, third: int)
    requires 0 <= first < 0x100 && 0 <= second < 0x100 && 0 <= third < 0x100
    ensures var value := first * 0x1_0000 + second * 0x100 + third;
      && 0 <= value < 0x100_0000
      && value / 0x1_0000 % 0x100 == first && value / 0x100 % 0x100 == second && value % 0x100 == third
  {
    var value := first * 0x1_0000 + second * 0x100 + third;
    assert value / 0x100 == first * 0x100 + second;
    assert value / 0x1_0000 == first;
  }

  /** Four sextets out of 24 bits. */
  lemma SextetsOut(value: int)
    requires 0 <= value < 0x100_0000
    ensures Joined(value / 0x4_0000 % 0x40, value / 0x1000 % 0x40, value / 0x40 % 0x40, value % 0x40) == value
  {
    var a, b, c := value / 0x40, value / 0x1000, value / 0x4_0000;
    assert value == a * 0x40 + value % 0x40;
    assert b == a / 0x40 && a == b * 0x40 + a % 0x40;
    assert c == b / 0x40 && b == c * 0x40 + b % 0x40;
    assert 0 <= c < 0x40;
  }

  lemma GroupBits(bytes: seq<byte>)
    requires 1 <= |bytes| <= 3
    ensures var value := Group(bytes);
      && 0 <= value < 0x100_0000
      && Joined(value / 0x4_0000 % 0x40, value / 0x1000 % 0x40, value / 0x40 % 0x40, value % 0x40) == value
      && (|bytes| < 3 ==> value % 0x40 == 0) && (|bytes| < 2 ==> value / 0x40 % 0x40 == 0)
      && value / 0x1_0000 % 0x100 == bytes[0]
      && (|bytes| > 1 ==> value / 0x100 % 0x100 == bytes[1])
      && (|bytes| > 2 ==> value % 0x100 == bytes[2])
  {
    hide Joined;
    BytesOut(bytes[0], if |bytes| > 1 then bytes[1] else 0, if |bytes| > 2 then bytes[2] else 0);
    SextetsOut(Group(bytes));
    if |bytes| < 3 { LowBits(bytes[0], if |bytes| > 1 then bytes[1] else 0); }
  }

  lemma LowBits(first: int, second: int)
    requires 0 <= first < 0x100 && 0 <= second < 0x100
    ensures (first * 0x1_0000 + second * 0x100) % 0x40 == 0
    ensures second == 0 ==> (first * 0x1_0000 + second * 0x100) / 0x40 % 0x40 == 0
  {
    assert first * 0x1_0000 + second * 0x100 == 0x40 * (first * 0x400 + second * 4);
    assert (first * 0x1_0000 + second * 0x100) / 0x40 == first * 0x400 + second * 4;
    assert first * 0x400 == 0x40 * (first * 0x10);
  }

  function Pad(c: char): nat {
    if c == '=' then 1 else 0
  }

  lemma PaddingOfFour(chunk: string)
    requires |chunk| == 4
    ensures Padding(chunk) == Pad(chunk[0]) + Pad(chunk[1]) + Pad(chunk[2]) + Pad(chunk[3])
  {
    assert chunk[..3][..2] == chunk[..2] && chunk[..2][..1] == chunk[..1] && chunk[..1][..0] == "";
    assert Padding(chunk[..1]) == Pad(chunk[0]);
    assert Padding(chunk[..2]) == Padding(chunk[..1]) + Pad(chunk[1]);
    assert Padding(chunk[..3]) == Padding(chunk[..2]) + Pad(chunk[2]);
  }

  /** A chunk reads back. */
  lemma ChunkReadsBack(bytes: seq<byte>)
    requires 1 <= |bytes| <= 3
    ensures DecodeChunk(EncodeChunk(bytes)) == Some(bytes)
  {
    hide Sextet, Letter, Padding, EncodeChunk, Group, Joined, Digit;
    ChunkHoldsBits(bytes);
    GroupBits(bytes);
    PaddingOfFour(EncodeChunk(bytes));
    assert DecodeChunk(EncodeChunk(bytes)).value == bytes;
  }

  predicate NoWhiteSpace(text: string) {
    forall i | 0 <= i < |text| :: !IsAsciiWhiteSpace(text[i])
  }

  lemma {:induction false} NothingToClean(text: string)
    requires NoWhiteSpace(text)
    ensures Cleaned(text) == text
  {
    hide IsAsciiWhiteSpace;
    if text != "" {
      var n := |text| - 1;
      NothingToClean(text[..n]);
      assert text == text[..n] + [text[n]];
    }
  }

  lemma ChunksRead(chunk: string, rest: string, bytes: seq<byte>, more: seq<byte>)
    requires |chunk| == 4
    requires DecodeChunk(chunk) == Some(bytes) && DecodeChunks(rest) == Some(more)
    ensures DecodeChunks(chunk + rest) == Some(bytes + more)
  {
    hide DecodeChunk;
    assert (chunk + rest)[..4] == chunk && (chunk + rest)[4..] == rest;
  }

  /** An encoding is four characters for every three bytes or part of three. */
  lemma {:induction false} EncodeLength(input: seq<byte>)
    ensures |Encode(input)| == 4 * ((|input| + 2) / 3)
    decreases |input|
  {
    hide EncodeChunk;
    if input != [] {
      var n := if |input| >= 3 then 3 else |input|;
      EncodeStep(input, n);
      EncodeLength(input[n..]);
    }
  }

  /** None of them is white space, and they decode to the bytes. */
  lemma {:induction false} EncodeReadsBack(input: seq<byte>)
    ensures NoWhiteSpace(Encode(input))
    ensures DecodeChunks(Encode(input)) == Some(input)
    decreases |input|
  {
    hide EncodeChunk, DecodeChunk, Digit, IsAsciiWhiteSpace, Joined, Group;
    if input != [] {
      var n := if |input| >= 3 then 3 else |input|;
      EncodeStep(input, n);
      ChunkHoldsBits(input[..n]);
      ChunkReadsBack(input[..n]);
      EncodeReadsBack(input[n..]);
      ChunksRead(EncodeChunk(input[..n]), Encode(input[n..]), input[..n], input[n..]);
      assert input[..n] + input[n..] == input;
    }
  }

  /** Decoding an encoding gives the bytes back, unless there were none: the empty text is refused. */
  lemma DecodeEncode(input: seq<byte>)
    ensures |Encode(input)| == 4 * ((|input| + 2) / 3)
    ensures Decode(Encode(input)) == if input == [] then Err(InvalidBase64) else Ok(input)
  {
    hide Encode, DecodeChunks, Cleaned, NoWhiteSpace;
    EncodeLength(input);
    EncodeReadsBack(input);
    NothingToClean(Encode(input));
  }

  /** No encoding begins with padding. */
  lemma FirstIsLetter(input: seq<byte>)
    requires input != []
    ensures |Encode(input)| >= 4 && Encode(input)[0] != '='
  {
    hide EncodeChunk, Digit, Joined, Group, IsAsciiWhiteSpace;
    var n := if |input| >= 3 then 3 else |input|;
    EncodeStep(input, n);
    ChunkHoldsBits(input[..n]);
  }

  /** Padding is taken anywhere: a text that no encoding equals is decoded all the same. */
  lemma StrayPaddingDecodes(text: string)
    requires text == ['=', 'A', 'A', 'A']
    ensures Decode(text) == Ok([0, 0])
    ensures forall input: seq<byte> :: Encode(input) != text
  {
    hide Encode, Decode, DecodeChunks;
    EncodeNothing();
    forall input: seq<byte> ensures Encode(input) != text {
      if input != [] { FirstIsLetter(input); }
    }
    StrayChunk(text);
    NothingToClean(text);
    OneChunk(text);
  }

  lemma EncodeNothing()
    ensures Encode([]) == ""
  {}

  lemma StrayChunk(text: string)
    requires text == ['=', 'A', 'A', 'A']
    ensures DecodeChunk(text) == Some([0, 0])
  {
    hide Padding, Digit, Joined;
    PaddingOfFour(text);
    ZeroDigits();
    assert Joined(0, 0, 0, 0) == 0 by { JoinedZero(); }
    assert Padding(text) == 1;
    var zero: seq<byte> := [0];
    assert DecodeChunk(text) == Some(zero + zero + []);
    assert zero + zero + [] == [0, 0];
  }

  lemma ZeroDigits()
    ensures Digit('=') == Some(0) && Digit('A') == Some(0)
  {}

  lemma JoinedZero()
    ensures Joined(0, 0, 0, 0) == 0
  {}

  lemma OneChunk(text: string)
    requires |text| == 4 && Cleaned(text) == text && DecodeChunk(text).Some?
    ensures Decode(text) == Ok(DecodeChunk(text).value)
  {
    hide DecodeChunk, Cleaned;
    assert text[..4] == text && text[4..] == "";
    assert DecodeChunks(text[4..]) == Some([]);
    assert DecodeChunk(text).value + [] == DecodeChunk(text).value;
  }
}
