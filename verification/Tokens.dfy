/** Access tokens: unpadded base64url, the three parts of a token, and the padding of the hash behind its signature. */
module Tokens {
  import opened Basics

  type Byte = n: nat | n < 256

  /** The character of a six-bit value, as the alphabet has it. */
  function Char(n: nat): char
    requires n < 64
  {
    if n < 26 then 'A' + n as char
    else if n < 52 then 'a' + (n - 26) as char
    else if n < 62 then '0' + (n - 52) as char
    else if n == 62 then '-' else '_'
  }

  function CharValue(c: char): (v: Option<nat>)
    ensures v.Some? ==> v.value < 64
  {
    if 'A' <= c <= 'Z' then Some((c - 'A') as nat)
    else if 'a' <= c <= 'z' then Some((c - 'a') as nat + 26)
    else if '0' <= c <= '9' then Some((c - '0') as nat + 52)
    else if c == '-' then Some(62)
    else if c == '_' then Some(63)
    else None
  }

  lemma CharsAreValues(n: nat, c: char)
    requires n < 64
    ensures Char(n) == c <==> CharValue(c) == Some(n)
  {}

  /** The alphabet of section 5 of RFC 4648: capital letters, small letters, digits, a hyphen and an underscore. */
  lemma Alphabet(n: nat)
    requires n < 63
    ensures Char(0) == 'A' && Char(25) == 'Z' && Char(26) == 'a' && Char(51) == 'z' && Char(52) == '0' && Char(61) == '9'
    ensures Char(62) == '-' && Char(63) == '_'
    ensures n !in {25, 51, 61, 62} ==> Char(n + 1) as nat == Char(n) as nat + 1
  {}

  // ---------------------------------------------------------------- encoding

  /** The 24 bits of up to three bytes, missing ones being zero. */
  function Bits(data: seq<Byte>): nat { ByteAt(data, 0) * 0x10000 + ByteAt(data, 1) * 0x100 + ByteAt(data, 2) }

  function ByteAt(data: seq<Byte>, i: nat): (b: nat)
    ensures b < 256
  {
    if i < |data| then data[i] else 0
  }

  function EncodeGroup(data: seq<Byte>): string
    requires 0 < |data| <= 3
  {
    var value := Bits(data);
    [Char(value / 0x40000 % 64), Char(value / 0x1000 % 64)]
    + (if |data| > 1 then [Char(value / 0x40 % 64)] else [])
    + (if |data| > 2 then [Char(value % 64)] else [])
  }

  function Encode(data: seq<Byte>): string {
    if data == [] then ""
    else if |data| <= 3 then EncodeGroup(data)
    else EncodeGroup(data[..3]) + Encode(data[3..])
  }

  /** What is left to encode, group by group. */
  lemma EncodeStep(data: seq<Byte>, index: nat)
    requires index < |data|
    ensures var group := if |data| - index <= 3 then data[index..] else data[index..index + 3];
      Encode(data[index..]) == EncodeGroup(group) + if |data| - index <= 3 then "" else Encode(data[index + 3..])
  {
    var rest := data[index..];
    if |rest| > 3 { assert rest[..3] == data[index..index + 3] && rest[3..] == data[index + 3..]; }
  }

  method Base64Url(data: seq<Byte>) returns (output: string)
    ensures output == Encode(data)
  {
    output := "";
    var index := 0;
    assert data[0..] == data;
    while index < |data|
      invariant index < |data| + 3
      invariant output + (if index < |data| then Encode(data[index..]) else "") == Encode(data)
      decreases |data| - index
    {
      var remaining := |data| - index;
      var value := ByteAt(data, index) * 0x10000 + (if remaining > 1 then ByteAt(data, index + 1) * 0x100 else 0)
        + (if remaining > 2 then ByteAt(data, index + 2) else 0);
      ghost var group := if remaining <= 3 then data[index..] else data[index..index + 3];
      assert value == Bits(group);
      EncodeStep(data, index);
      var piece := [Char(value / 0x40000 % 64), Char(value / 0x1000 % 64)];
      if remaining > 1 { piece := piece + [Char(value / 0x40 % 64)]; }
      if remaining > 2 { piece := piece + [Char(value % 64)]; }
      assert piece == EncodeGroup(group);
      Regroup(output, piece, if remaining > 3 then Encode(data[index + 3..]) else "");
      output := output + piece;
      index := index + 3;
    }
    assert output + "" == output;
  }

  // ---------------------------------------------------------------- decoding, by section 5 of RFC 4648 without padding

  /** The bytes of up to four characters; bits that belong to no byte have to be zero. */
  function DecodeGroup(text: string): Option<seq<Byte>>
    requires 0 < |text| <= 4
  {
    if |text| == 1 || CharValue(text[0]).None? || CharValue(text[1]).None? then None
    else
      var a, b := CharValue(text[0]).value, CharValue(text[1]).value;
      if |text| == 2 then if b % 16 != 0 then None else Some([a * 4 + b / 16])
      else if CharValue(text[2]).None? then None
      else
        var c := CharValue(text[2]).value;
        if |text| == 3 then if c % 4 != 0 then None else Some([a * 4 + b / 16, b % 16 * 16 + c / 4])
        else if CharValue(text[3]).None? then None
        else Some([a * 4 + b / 16, b % 16 * 16 + c / 4, c % 4 * 64 + CharValue(text[3]).value])
  }

  function Decode(text: string): Option<seq<Byte>> {
    if text == "" then Some([])
    else if |text| <= 4 then DecodeGroup(text)
    else
      var first, rest := DecodeGroup(text[..4]), Decode(text[4..]);
      if first.None? || rest.None? then None else Some(first.value + rest.value)
  }

  /** The six-bit parts of 24 bits given as three bytes, each byte split where a part ends. */
  lemma SixBits(a: nat, b: nat, c: nat, d: nat, e: nat, f: nat)
    requires a < 64 && b < 4 && c < 16 && d < 16 && e < 4 && f < 64
    ensures var value := (a * 4 + b) * 0x10000 + (c * 16 + d) * 0x100 + (e * 64 + f);
      && value / 0x40000 % 64 == a && value / 0x1000 % 64 == b * 16 + c
      && value / 0x40 % 64 == d * 4 + e && value % 64 == f
  {
    var value := (a * 4 + b) * 0x10000 + (c * 16 + d) * 0x100 + (e * 64 + f);
    assert value == a * 0x40000 + (b * 16 + c) * 0x1000 + (d * 4 + e) * 0x40 + f;
    assert value / 0x40 == a * 0x1000 + (b * 16 + c) * 0x40 + (d * 4 + e);
    assert value / 0x1000 == a * 0x40 + (b * 16 + c);
    assert value / 0x40000 == a;
  }

  /** The six-bit parts of a group of bytes. */
  lemma GroupParts(data: seq<Byte>)
    ensures var x := ByteAt(data, 0); var y := ByteAt(data, 1); var z := ByteAt(data, 2); var value := Bits(data);
      && value / 0x40000 % 64 == x / 4 && value / 0x1000 % 64 == x % 4 * 16 + y / 16
      && value / 0x40 % 64 == y % 16 * 4 + z / 64 && value % 64 == z % 64
  {
    var x, y, z := ByteAt(data, 0), ByteAt(data, 1), ByteAt(data, 2);
    SixBits(x / 4, x % 4, y / 16, y % 16, z / 64, z % 64);
  }

  /** What the decoder makes of two to four characters with these values. */
  function Rejoined(count: nat, a: nat, b: nat, c: nat, d: nat): Option<seq<Byte>>
    requires a < 64 && b < 64 && c < 64 && d < 64
  {
    match count
    case 2 => if b % 16 != 0 then None else Some([a * 4 + b / 16])
    case 3 => if c % 4 != 0 then None else Some([a * 4 + b / 16, b % 16 * 16 + c / 4])
    case 4 => Some([a * 4 + b / 16, b % 16 * 16 + c / 4, c % 4 * 64 + d])
    case _ => None
  }

  lemma DecodedValues(text: string, a: nat, b: nat, c: nat, d: nat)
    requires 1 < |text| <= 4 && a < 64 && b < 64 && c < 64 && d < 64
    requires text[0] == Char(a) && text[1] == Char(b)
    requires (|text| > 2 ==> text[2] == Char(c)) && (|text| > 3 ==> text[3] == Char(d))
    ensures DecodeGroup(text) == Rejoined(|text|, a, b, c, d)
  {
    CharsAreValues(a, text[0]);
    CharsAreValues(b, text[1]);
    if |text| > 2 { CharsAreValues(c, text[2]); }
    if |text| > 3 { CharsAreValues(d, text[3]); }
  }

  lemma GroupIsDecoded(data: seq<Byte>)
    requires 0 < |data| <= 3
    ensures DecodeGroup(EncodeGroup(data)) == Some(data)
    ensures |EncodeGroup(data)| == |data| + 1
  {
    var x, y, z := ByteAt(data, 0), ByteAt(data, 1), ByteAt(data, 2);
    GroupParts(data);
    DecodedValues(EncodeGroup(data), x / 4, x % 4 * 16 + y / 16, y % 16 * 4 + z / 64, z % 64);
    BytesRejoin(x, y, z);
    assert data == if |data| == 1 then [x] else if |data| == 2 then [x, y] else [x, y, z];
  }

  lemma BytesRejoin(x: Byte, y: Byte, z: Byte)
    ensures var b := x % 4 * 16 + y / 16; var c := y % 16 * 4 + z / 64;
      && Rejoined(4, x / 4, b, c, z % 64) == Some([x, y, z])
      && (z == 0 ==> Rejoined(3, x / 4, b, c, z % 64) == Some([x, y]))
      && (y == 0 && z == 0 ==> Rejoined(2, x / 4, b, c, z % 64) == Some([x]))
  {}

  /** The standard decoder recovers every byte string. */
  lemma {:induction false} EncodeIsDecoded(data: seq<Byte>)
    ensures Decode(Encode(data)) == Some(data)
    decreases |data|
  {
    if data == [] {
    } else if |data| <= 3 {
      GroupIsDecoded(data);
    } else {
      GroupIsDecoded(data[..3]);
      EncodeIsDecoded(data[3..]);
      LengthIsRoundedUp(data[3..]);
      var text := Encode(data);
      assert text[..4] == EncodeGroup(data[..3]) && text[4..] == Encode(data[3..]);
      assert data[..3] + data[3..] == data;
    }
  }

  lemma GroupIsEncoded(text: string)
    requires 0 < |text| <= 4 && DecodeGroup(text).Some?
    ensures var data := DecodeGroup(text).value; 0 < |data| <= 3 && |text| == |data| + 1 && EncodeGroup(data) == text
  {
    var data := DecodeGroup(text).value;
    var a, b := CharValue(text[0]).value, CharValue(text[1]).value;
    var c, d := if |text| > 2 then CharValue(text[2]).value else 0, if |text| > 3 then CharValue(text[3]).value else 0;
    SixBits(a, b / 16, b % 16, c / 4, c % 4, d);
    assert ByteAt(data, 0) == a * 4 + b / 16 && ByteAt(data, 1) == b % 16 * 16 + c / 4 && ByteAt(data, 2) == c % 4 * 64 + d;
    CharsAreValues(a, text[0]);
    CharsAreValues(b, text[1]);
    if |text| > 2 { CharsAreValues(c, text[2]); }
    if |text| > 3 { CharsAreValues(d, text[3]); }
  }

  /** Whatever the decoder accepts is what the encoder writes for it: the two are inverse. */
  lemma {:induction false} DecodedIsEncoded(text: string)
    requires Decode(text).Some?
    ensures Encode(Decode(text).value) == text
    decreases |text|
  {
    if text == "" {
    } else if |text| <= 4 {
      GroupIsEncoded(text);
    } else {
      var first, rest := DecodeGroup(text[..4]).value, Decode(text[4..]).value;
      GroupIsEncoded(text[..4]);
      DecodedIsEncoded(text[4..]);
      assert (first + rest)[..3] == first && (first + rest)[3..] == rest;
      assert text[..4] + text[4..] == text;
    }
  }

  /** `n` bytes become `4n/3` characters, rounded up. */
  lemma {:induction false} LengthIsRoundedUp(data: seq<Byte>)
    ensures |Encode(data)| == (|data| * 4 + 2) / 3
    ensures data != [] ==> Encode(data) != ""
    decreases |data|
  {
    if |data| > 3 { LengthIsRoundedUp(data[3..]); }
  }

  predicate Undotted(text: string) { forall i :: 0 <= i < |text| ==> text[i] != '.' }

  lemma {:induction false} EncodingIsUndotted(data: seq<Byte>)
    ensures Undotted(Encode(data))
    decreases |data|
  {
    if |data| > 3 { EncodingIsUndotted(data[3..]); }
  }

  // ---------------------------------------------------------------- the parts of a token

  /** A token from its header, payload and signature. */
  method Token(header: seq<Byte>, payload: seq<Byte>, signature: seq<Byte>) returns (token: string)
    ensures token == Joined(Encode(header), Encode(payload), Encode(signature))
    ensures Split(token) == [Encode(header), Encode(payload), Encode(signature)]
    ensures Decode(Split(token)[0]) == Some(header) && Decode(Split(token)[1]) == Some(payload)
    ensures Decode(Split(token)[2]) == Some(signature)
  {
    var first := Base64Url(header);
    var second := Base64Url(payload);
    var signingInput := first + "." + second;
    var third := Base64Url(signature);
    token := signingInput + "." + third;
    EncodingIsUndotted(header);
    EncodingIsUndotted(payload);
    EncodingIsUndotted(signature);
    JoinedIsSplit(first, second, third);
    EncodeIsDecoded(header);
    EncodeIsDecoded(payload);
    EncodeIsDecoded(signature);
  }

  function Joined(a: string, b: string, c: string): string { a + "." + b + "." + c }

  /** The parts of a text between its dots. */
  function Split(text: string): (parts: seq<string>)
    ensures parts != []
  {
    if text == "" then [""]
    else
      var rest := Split(text[1..]);
      if text[0] == '.' then [""] + rest else [[text[0]] + rest[0]] + rest[1..]
  }

  lemma {:induction false} UndottedIsOnePart(text: string)
    requires Undotted(text)
    ensures Split(text) == [text]
  {
    if text != "" {
      UndottedIsOnePart(text[1..]);
      assert [text[0]] + text[1..] == text;
    }
  }

  lemma {:induction false} FirstPart(a: string, rest: string)
    requires Undotted(a)
    ensures Split(a + "." + rest) == [a] + Split(rest)
  {
    var text := a + "." + rest;
    if a == "" {
      assert text[1..] == rest;
    } else {
      FirstPart(a[1..], rest);
      assert text[1..] == a[1..] + "." + rest;
      assert [text[0]] + a[1..] == a;
    }
  }

  lemma JoinedIsSplit(a: string, b: string, c: string)
    requires Undotted(a) && Undotted(b) && Undotted(c)
    ensures Split(Joined(a, b, c)) == [a, b, c]
  {
    assert Joined(a, b, c) == a + "." + (b + "." + c);
    FirstPart(a, b + "." + c);
    FirstPart(b, c);
    UndottedIsOnePart(c);
  }

  // ---------------------------------------------------------------- the padding of section 5.1.1 of FIPS 180-4

  const DIVISORS: seq<nat> := [
    0x1_00_00_00_00_00_00_00, 0x1_00_00_00_00_00_00, 0x1_00_00_00_00_00, 0x1_00_00_00_00, 0x1_00_00_00, 0x1_00_00, 0x1_00, 1]

  /** A 64-bit number, highest byte first. */
  function BigEndian(n: nat): seq<Byte> {
    seq(8, i requires 0 <= i < 8 => n / DIVISORS[i] % 256)
  }

  function Zeros(n: nat): seq<Byte> { seq(n, i => 0) }

  /** How many zero bytes bring the marked message to 56 bytes beyond a multiple of 64. */
  function Gap(n: nat): nat { (119 - n % 64) % 64 }

  function Padded(message: seq<Byte>): seq<Byte> {
    message + [0x80] + Zeros(Gap(|message|)) + BigEndian(|message| * 8 % UINT64_SIZE)
  }

  lemma GapIsReached(n: nat, added: nat)
    requires added <= Gap(n)
    ensures (n + 1 + added) % 64 == 56 <==> added == Gap(n)
  {}

  method Pad(input: seq<Byte>) returns (message: seq<Byte>)
    ensures message == Padded(input)
  {
    var bitLength := |input| * 8 % UINT64_SIZE;
    message := input + [0x80];
    ghost var added := 0;
    GapIsReached(|input|, added);
    while |message| % 64 != 56
      invariant added <= Gap(|input|) && message == input + [0x80] + Zeros(added)
      invariant |message| % 64 == 56 <==> added == Gap(|input|)
      decreases Gap(|input|) - added
    {
      ZerosMore(input + [0x80], added);
      message := message + [0];
      added := added + 1;
      GapIsReached(|input|, added);
    }
    var length := WriteBigEndian(bitLength);
    message := message + length;
  }

  method WriteBigEndian(n: nat) returns (bytes: seq<Byte>)
    ensures bytes == BigEndian(n)
  {
    bytes := [];
    for i := 0 to 8
      invariant bytes == BigEndian(n)[..i]
    {
      assert BigEndian(n)[..i + 1] == BigEndian(n)[..i] + [n / DIVISORS[i] % 256];
      bytes := bytes + [n / DIVISORS[i] % 256];
    }
  }

  lemma ZerosMore(front: seq<Byte>, n: nat)
    ensures front + Zeros(n) + [0] == front + Zeros(n + 1)
  {
    assert Zeros(n) + [0] == Zeros(n + 1);
  }

  /** The padded message is the least multiple of 64 bytes that holds the message, its mark and its length. */
  lemma PaddedLength(message: seq<Byte>)
    ensures |Padded(message)| % 64 == 0 && |message| + 9 <= |Padded(message)| < |message| + 9 + 64
  {}

  /** Each divisor takes one more byte off a number than the next. */
  lemma ByteStep(n: nat, i: nat)
    requires 1 <= i < 8
    ensures n / DIVISORS[i - 1] == n / DIVISORS[i] / 256
  {
    match i
    case 1 => assert n / 0x1_00_00_00_00_00_00_00 == n / 0x1_00_00_00_00_00_00 / 256;
    case 2 => assert n / 0x1_00_00_00_00_00_00 == n / 0x1_00_00_00_00_00 / 256;
    case 3 => assert n / 0x1_00_00_00_00_00 == n / 0x1_00_00_00_00 / 256;
    case 4 => assert n / 0x1_00_00_00_00 == n / 0x1_00_00_00 / 256;
    case 5 => assert n / 0x1_00_00_00 == n / 0x1_00_00 / 256;
    case 6 => assert n / 0x1_00_00 == n / 0x1_00 / 256;
    case 7 => assert n / 0x1_00 == n / 1 / 256;
  }

  lemma Rejoin(m: nat, n: nat)
    requires m / 256 == n / 256 && m % 256 == n % 256
    ensures m == n
  {}

  /** A number without its last bytes is determined by the bytes before them. */
  lemma {:induction false} BytesDetermine(m: nat, n: nat, i: nat)
    requires i < 8 && m < UINT64_SIZE && n < UINT64_SIZE && BigEndian(m) == BigEndian(n)
    ensures m / DIVISORS[i] == n / DIVISORS[i]
  {
    assert BigEndian(m)[i] == BigEndian(n)[i];
    if i == 0 {
      TopByte(m);
      TopByte(n);
    } else {
      BytesDetermine(m, n, i - 1);
      ByteStep(m, i);
      ByteStep(n, i);
      Rejoin(m / DIVISORS[i], n / DIVISORS[i]);
    }
  }

  lemma TopByte(n: nat)
    requires n < UINT64_SIZE
    ensures n / DIVISORS[0] % 256 == n / DIVISORS[0]
  {
    assert n / 0x1_00_00_00_00_00_00_00 < 256;
  }

  lemma BigEndianIsInjective(m: nat, n: nat)
    requires m < UINT64_SIZE && n < UINT64_SIZE && BigEndian(m) == BigEndian(n)
    ensures m == n
  {
    BytesDetermine(m, n, 7);
  }

  lemma Ends(message: seq<Byte>, middle: seq<Byte>, end: seq<Byte>)
    ensures var all := message + middle + end; all[..|message|] == message && all[|all| - |end|..] == end
  {}

  lemma ShortLength(length: nat)
    requires length < 0x2000_0000_0000_0000
    ensures length * 8 % UINT64_SIZE == length * 8
  {}

  lemma PaddedSplits(message: seq<Byte>, end: seq<Byte>)
    ensures message + [0x80] + Zeros(Gap(|message|)) + end == message + ([0x80] + Zeros(Gap(|message|))) + end
  {
    Regroup(message, [0x80], Zeros(Gap(|message|)));
  }

  lemma PaddedEnd(message: seq<Byte>)
    requires |message| < 0x2000_0000_0000_0000
    ensures |Padded(message)| >= |message| + 8 && Padded(message)[|Padded(message)| - 8..] == BigEndian(|message| * 8)
    ensures Padded(message)[..|message|] == message
  {
    ShortLength(|message|);
    PaddedSplits(message, BigEndian(|message| * 8));
    Ends(message, [0x80] + Zeros(Gap(|message|)), BigEndian(|message| * 8));
  }

  /** Below 2^61 bytes, different messages are padded differently. */
  lemma PaddingIsInjective(a: seq<Byte>, b: seq<Byte>)
    requires |a| < 0x2000_0000_0000_0000 && |b| < 0x2000_0000_0000_0000 && Padded(a) == Padded(b)
    ensures a == b
  {
    PaddedEnd(a);
    PaddedEnd(b);
    BigEndianIsInjective(|a| * 8, |b| * 8);
  }

  /** The number a byte string stands for, highest byte first. */
  function NumberOf(bytes: seq<Byte>): nat {
    if bytes == [] then 0 else 256 * NumberOf(bytes[..|bytes| - 1]) + bytes[|bytes| - 1]
  }

  lemma {:induction false} BigEndianPrefix(n: nat, i: nat)
    requires n < UINT64_SIZE && i < 8
    ensures NumberOf(BigEndian(n)[..i + 1]) == n / DIVISORS[i]
  {
    var bytes := BigEndian(n);
    assert bytes[..i + 1][..i] == bytes[..i] && bytes[..i + 1][i] == n / DIVISORS[i] % 256;
    if i == 0 {
      TopByte(n);
      assert bytes[..0] == [];
    } else {
      BigEndianPrefix(n, i - 1);
      ByteStep(n, i);
    }
  }

  /** What is hashed: the message, a one bit, zeros, and the length of the message in bits. */
  lemma PaddedParts(message: seq<Byte>)
    requires |message| < 0x2000_0000_0000_0000
    ensures var padded := Padded(message);
      && padded[..|message|] == message && padded[|message|] == 0x80
      && (forall i :: |message| < i < |padded| - 8 ==> padded[i] == 0)
      && NumberOf(padded[|padded| - 8..]) == 8 * |message|
  {
    PaddedEnd(message);
    BigEndianPrefix(|message| * 8, 7);
    assert BigEndian(|message| * 8)[..8] == BigEndian(|message| * 8);
  }
}
