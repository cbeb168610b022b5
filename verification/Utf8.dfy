/** Code points as UTF-8 bytes and as escaped UTF-16 code units. */
module Utf8 {
  import opened Basics

  type Byte = n: nat | n < 256

  predicate IsSurrogate(n: nat) { 0xD800 <= n <= 0xDFFF }

  /** The code points UTF-8 can carry. */
  predicate IsScalar(n: nat) { n <= 0x10FFFF && !IsSurrogate(n) }

  /** The bytes appended for a code point. */
  function Encode(n: nat): seq<Byte>
    requires n <= 0x10FFFF
  {
    if n <= 0x7F then [n]
    else if n <= 0x7FF then [0xC0 + n / 0x40, 0x80 + n % 0x40]
    else if n <= 0xFFFF then [0xE0 + n / 0x1000, 0x80 + n / 0x40 % 0x40, 0x80 + n % 0x40]
    else [0xF0 + n / 0x40000, 0x80 + n / 0x1000 % 0x40, 0x80 + n / 0x40 % 0x40, 0x80 + n % 0x40]
  }

  predicate IsTail(b: Byte) { 0x80 <= b <= 0xBF }

  /** The payload of a byte above its marker. */
  function Part(b: Byte, marker: nat): nat
    requires marker <= b
  {
    b - marker
  }

  /** A code point and the number of its bytes. */
  datatype Decoded = Decoded(point: nat, length: nat)

  /** The first character of a byte string by the syntax of section 4 of RFC 3629. */
  function DecodeOne(bytes: seq<Byte>): Option<Decoded> {
    if |bytes| >= 1 && bytes[0] <= 0x7F then Some(Decoded(bytes[0], 1))
    else if |bytes| >= 2 && 0xC2 <= bytes[0] <= 0xDF && IsTail(bytes[1])
    then Some(Decoded(Part(bytes[0], 0xC0) * 0x40 + Part(bytes[1], 0x80), 2))
    else if |bytes| >= 3 && 0xE0 <= bytes[0] <= 0xEF && IsTail(bytes[1]) && IsTail(bytes[2])
      && (bytes[0] == 0xE0 ==> bytes[1] >= 0xA0) && (bytes[0] == 0xED ==> bytes[1] <= 0x9F)
    then Some(Decoded(Part(bytes[0], 0xE0) * 0x1000 + Part(bytes[1], 0x80) * 0x40 + Part(bytes[2], 0x80), 3))
    else if |bytes| >= 4 && 0xF0 <= bytes[0] <= 0xF4 && IsTail(bytes[1]) && IsTail(bytes[2]) && IsTail(bytes[3])
      && (bytes[0] == 0xF0 ==> bytes[1] >= 0x90) && (bytes[0] == 0xF4 ==> bytes[1] <= 0x8F)
    then Some(Decoded(Part(bytes[0], 0xF0) * 0x40000 + Part(bytes[1], 0x80) * 0x1000 + Part(bytes[2], 0x80) * 0x40 + Part(bytes[3], 0x80), 4))
    else None
  }

  /** A decoder reads back every code point that is appended. */
  lemma EncodeIsDecoded(n: nat, rest: seq<Byte>)
    requires IsScalar(n)
    ensures DecodeOne(Encode(n) + rest) == Some(Decoded(n, |Encode(n)|))
  {
    Digits(n);
    var bytes := Encode(n) + rest;
    assert bytes[0] == Encode(n)[0];
    if n > 0x7F { assert bytes[1] == Encode(n)[1]; }
    if n > 0x7FF { assert bytes[2] == Encode(n)[2]; }
    if n > 0xFFFF { assert bytes[3] == Encode(n)[3]; }
  }

  /** A code point is its digits to the base of 64. */
  lemma Digits(n: nat)
    ensures n / 0x1000 == n / 0x40 / 0x40 && n / 0x40000 == n / 0x40 / 0x40 / 0x40
    ensures n == n / 0x40 * 0x40 + n % 0x40
    ensures n / 0x40 == n / 0x1000 * 0x40 + n / 0x40 % 0x40
    ensures n / 0x1000 == n / 0x40000 * 0x40 + n / 0x1000 % 0x40
  {}

  /** Whatever a decoder accepts is the encoding of a scalar value, the shortest there is: the two are inverse. */
  lemma DecodedIsEncoded(bytes: seq<Byte>)
    requires DecodeOne(bytes).Some?
    ensures var d := DecodeOne(bytes).value;
      IsScalar(d.point) && d.length <= |bytes| && Encode(d.point) == bytes[..d.length]
  {
    var d := DecodeOne(bytes).value;
    if d.length == 2 {
      Split(Part(bytes[0], 0xC0), Part(bytes[1], 0x80));
    } else if d.length == 3 {
      FromThree(Part(bytes[0], 0xE0), Part(bytes[1], 0x80), Part(bytes[2], 0x80));
    } else if d.length == 4 {
      FromFour(Part(bytes[0], 0xF0), Part(bytes[1], 0x80), Part(bytes[2], 0x80), Part(bytes[3], 0x80));
    }
  }

  lemma FromThree(a: nat, b: nat, c: nat)
    requires a < 0x10 && b < 0x40 && c < 0x40
    ensures var n := a * 0x1000 + b * 0x40 + c; n / 0x1000 == a && n / 0x40 % 0x40 == b && n % 0x40 == c
  {
    Split(a * 0x40 + b, c);
    Split(a, b);
    Digits(a * 0x1000 + b * 0x40 + c);
  }

  lemma FromFour(a: nat, b: nat, c: nat, d: nat)
    requires a < 8 && b < 0x40 && c < 0x40 && d < 0x40
    ensures var n := a * 0x40000 + b * 0x1000 + c * 0x40 + d;
      n / 0x40000 == a && n / 0x1000 % 0x40 == b && n / 0x40 % 0x40 == c && n % 0x40 == d
  {
    Split((a * 0x40 + b) * 0x40 + c, d);
    Split(a * 0x40 + b, c);
    Split(a, b);
    Digits(a * 0x40000 + b * 0x1000 + c * 0x40 + d);
  }

  lemma Split(high: nat, low: nat)
    requires low < 0x40
    ensures (high * 0x40 + low) / 0x40 == high && (high * 0x40 + low) % 0x40 == low
  {}

  // ---------------------------------------------------------------- surrogate pairs

  predicate IsHigh(n: nat) { 0xD800 <= n <= 0xDBFF }

  predicate IsLow(n: nat) { 0xDC00 <= n <= 0xDFFF }

  /** The code point of a surrogate pair. */
  function Combine(high: nat, low: nat): nat
    requires IsHigh(high) && IsLow(low)
  {
    0x10000 + (high - 0xD800) * 0x400 + (low - 0xDC00)
  }

  /** Pairs and the code points from U+10000 to U+10FFFF correspond one to one. */
  lemma PairsAreBijective(high: nat, low: nat, n: nat)
    ensures IsHigh(high) && IsLow(low) ==> 0x10000 <= Combine(high, low) <= 0x10FFFF
    ensures IsHigh(high) && IsLow(low) && Combine(high, low) == n <==>
      0x10000 <= n <= 0x10FFFF && high == 0xD800 + (n - 0x10000) / 0x400 && low == 0xDC00 + (n - 0x10000) % 0x400
  {}

  // ---------------------------------------------------------------- well-formed text

  predicate WellFormed(bytes: seq<Byte>) {
    bytes == [] || (DecodeOne(bytes).Some? && DecodeOne(bytes).value.length <= |bytes|
                    && 0 < DecodeOne(bytes).value.length && WellFormed(bytes[DecodeOne(bytes).value.length..]))
  }

  lemma {:induction false} WellFormedConcat(a: seq<Byte>, b: seq<Byte>)
    requires WellFormed(a) && WellFormed(b)
    ensures WellFormed(a + b)
  {
    if a == [] {
      assert a + b == b;
    } else {
      var d := DecodeOne(a).value;
      DecodedIsEncoded(a);
      EncodeIsDecoded(d.point, a[d.length..] + b);
      assert a + b == Encode(d.point) + (a[d.length..] + b);
      assert (a + b)[d.length..] == a[d.length..] + b;
      WellFormedConcat(a[d.length..], b);
    }
  }

  lemma EncodeIsWellFormed(n: nat)
    requires IsScalar(n)
    ensures WellFormed(Encode(n))
  {
    EncodeIsDecoded(n, []);
    assert Encode(n) + [] == Encode(n);
    assert Encode(n)[|Encode(n)|..] == [];
  }
}
