/** What both parsers accept beyond what the other side prints, and what they refuse (sections 2, 6 and 7 of RFC 8259). */
module JsonLaws {
  import opened Basics
  import opened JsonText
  import Decimal
  import Utf8
  import Client = ClientJson
  import Server = ServerJson

  // ---------------------------------------------------------------- escapes

  /** A hexadecimal digit in either case. */
  predicate Denotes(c: char, v: nat) {
    || ('0' <= c <= '9' && v == c as nat - '0' as nat)
    || ('a' <= c <= 'f' && v == c as nat - 'a' as nat + 10)
    || ('A' <= c <= 'F' && v == c as nat - 'A' as nat + 10)
  }

  lemma DigitDenotes(c: char, v: nat)
    ensures Denotes(c, v) <==> Client.IsHexDigit(c) && Client.HexValue(c) == v
  {}

  /** Four digits give a code unit, the first one counting most; anything else gives none. */
  lemma UnitIsRead(input: string, offset: nat, a: nat, b: nat, c: nat, d: nat)
    requires offset + 4 <= |input|
    requires Denotes(input[offset], a) && Denotes(input[offset + 1], b) && Denotes(input[offset + 2], c) && Denotes(input[offset + 3], d)
    ensures Client.HexUnit(input, offset) == Some(0x1000 * a + 0x100 * b + 0x10 * c + d)
  {
    DigitDenotes(input[offset], a);
    DigitDenotes(input[offset + 1], b);
    DigitDenotes(input[offset + 2], c);
    DigitDenotes(input[offset + 3], d);
  }

  lemma UnitNeedsDigits(input: string, offset: nat)
    ensures Client.HexUnit(input, offset).None? <==>
      offset + 4 > |input| || exists i :: offset <= i < offset + 4 && !exists v :: Denotes(input[i], v)
  {
    if offset + 4 <= |input| {
      forall i | offset <= i < offset + 4 ensures (exists v :: Denotes(input[i], v)) <==> Client.IsHexDigit(input[i]) {
        if Client.IsHexDigit(input[i]) { DigitDenotes(input[i], Client.HexValue(input[i])); }
        if v :| Denotes(input[i], v) { DigitDenotes(input[i], v); }
      }
      assert Client.HexUnit(input, offset).Some? <==>
        (forall i :: offset <= i < offset + 4 ==> Client.IsHexDigit(input[i]));
    }
  }

  /** A unit outside the surrogates is its code point; two surrogates, high then low, are one together; others are refused. */
  lemma UnicodeEscapeIsRead(input: string, offset: nat)
    requires At(input, offset, 'u')
    ensures var first := Client.HexUnit(input, offset + 1); var r := Client.Escaped(input, offset);
      var paired := At(input, offset + 5, '\\') && At(input, offset + 6, 'u');
      var second := if paired then Client.HexUnit(input, offset + 7) else None;
      r == if first.None? then None
           else if first.value < 0xD800 || 0xDFFF < first.value then Some(Parsed(Client.Chars(Utf8.Encode(first.value)), offset + 5))
           else if first.value < 0xDC00 && second.Some? && 0xDC00 <= second.value <= 0xDFFF
           then Some(Parsed(Client.Chars(Utf8.Encode(0x10000 + (first.value - 0xD800) * 0x400 + (second.value - 0xDC00))), offset + 11))
           else None
  {}

  /** The short escapes, on either side; the server reads no others. */
  lemma ShortEscapes(input: string, offset: nat)
    requires offset < |input|
    ensures var c := input[offset];
      var meant := if c in {'"', '\\', '/'} then Some(c) else if c == 'b' then Some(BACKSPACE) else if c == 'f' then Some(FORM_FEED)
                   else if c == 'n' then Some('\n') else if c == 'r' then Some('\r') else if c == 't' then Some('\t') else None;
      && Server.Unescape(c) == meant
      && (c != 'u' ==> Client.Escaped(input, offset) == if meant.None? then None else Some(Parsed([meant.value], offset + 1)))
  {}

  /** A string holds no raw control character. */
  lemma {:induction false} ClientStringsAreClean(input: string, offset: nat, sofar: string, i: nat)
    requires offset <= i < |input| && IsControl(input[i])
    ensures var r := Client.StringBody(input, offset, sofar); r.Some? ==> r.value.offset <= i
    decreases |input| - offset
  {
    if offset < |input| && input[offset] != '"' && !IsControl(input[offset]) {
      if input[offset] != '\\' {
        ClientStringsAreClean(input, offset + 1, sofar + [input[offset]], i);
      } else if offset + 1 < |input| && Client.Escaped(input, offset + 1).Some? {
        var p := Client.Escaped(input, offset + 1).value;
        EscapeIsClean(input, offset + 1, i);
        if p.offset <= i { ClientStringsAreClean(input, p.offset, sofar + p.value, i); }
      }
    }
  }

  /** No control character is part of an escape. */
  lemma EscapeIsClean(input: string, offset: nat, i: nat)
    requires offset <= i < |input| && IsControl(input[i]) && Client.Escaped(input, offset).Some?
    ensures Client.Escaped(input, offset).value.offset <= i
  {
    if input[offset] == 'u' {
      CodePointIsClean(input, offset + 1, i);
    } else {
      ShortEscapes(input, offset);
    }
  }

  lemma CodePointIsClean(input: string, offset: nat, i: nat)
    requires offset <= i < |input| && IsControl(input[i]) && Client.CodePoint(input, offset).Some?
    ensures Client.CodePoint(input, offset).value.offset <= i
  {
    UnitIsClean(input, offset, i);
    if Utf8.IsHigh(Client.HexUnit(input, offset).value) { UnitIsClean(input, offset + 6, i); }
  }

  lemma UnitIsClean(input: string, offset: nat, i: nat)
    requires i < |input| && IsControl(input[i]) && Client.HexUnit(input, offset).Some?
    ensures i < offset || offset + 4 <= i
  {}

  lemma {:induction false} ServerStringsAreClean(input: string, offset: nat, sofar: string, i: nat)
    requires offset <= i < |input| && IsControl(input[i])
    ensures var r := Server.StringBody(input, offset, sofar); r.Some? ==> r.value.offset <= i
    decreases |input| - offset
  {
    if offset < |input| && input[offset] != '"' && !IsControl(input[offset]) {
      if input[offset] != '\\' {
        ServerStringsAreClean(input, offset + 1, sofar + [input[offset]], i);
      } else if offset + 1 < |input| && Server.Unescape(input[offset + 1]).Some? && offset + 2 <= i {
        ServerStringsAreClean(input, offset + 2, sofar + [Server.Unescape(input[offset + 1]).value], i);
      }
    }
  }

  // ---------------------------------------------------------------- numbers

  lemma {:induction false} DigitsAreDigits(input: string, offset: nat)
    requires offset <= |input|
    ensures Decimal.AllDigits(input[offset..Decimal.DigitsEnd(input, offset)])
    decreases |input| - offset
  {
    if offset < |input| && Decimal.IsDigit(input[offset]) {
      DigitsAreDigits(input, offset + 1);
      var end := Decimal.DigitsEnd(input, offset);
      assert input[offset..end] == [input[offset]] + input[offset + 1..end];
    }
  }

  predicate NoLeadingZero(digits: string) { |digits| > 1 ==> digits[0] != '0' }

  /** Digits without a leading zero are the print of their value. */
  lemma {:induction false} DigitsArePrinted(digits: string)
    requires digits != [] && Decimal.AllDigits(digits) && NoLeadingZero(digits)
    ensures Decimal.Print(Decimal.Value(digits)) == digits
    ensures digits[0] != '0' ==> Decimal.Value(digits) > 0
  {
    var n := |digits| - 1;
    var front, last := digits[..n], digits[n];
    assert last in digits;
    if n == 0 {
      assert front == [];
    } else {
      assert forall c :: c in front ==> c in digits;
      DigitsArePrinted(front);
      assert digits == front + [last];
    }
  }

  /** The client reads a number only as it is printed: without leading zeros, and within 64 bits. */
  lemma NumbersAreCanonical(input: string, offset: nat)
    requires offset <= |input| && Client.Number(input, offset).Some?
    ensures var p := Client.Number(input, offset).value;
      && p.value.Unsigned? && p.value.number < UINT64_SIZE && p.offset <= |input|
      && input[offset..p.offset] == Decimal.Print(p.value.number)
      && Decimal.Delimited(input, p.offset)
  {
    var end := Decimal.DigitsEnd(input, offset);
    DigitsAreDigits(input, offset);
    assert input[offset..end][0] == input[offset];
    DigitsArePrinted(input[offset..end]);
    EndsAtNoDigit(input, offset);
  }

  lemma {:induction false} EndsAtNoDigit(input: string, offset: nat)
    requires offset <= |input|
    ensures Decimal.Delimited(input, Decimal.DigitsEnd(input, offset))
    decreases |input| - offset
  {
    if offset < |input| && Decimal.IsDigit(input[offset]) { EndsAtNoDigit(input, offset + 1); }
  }

  // ---------------------------------------------------------------- white space, repeated names and what stands behind

  predicate Blank(input: string, offset: nat, end: nat, extra: set<char>)
    requires offset <= end <= |input|
  {
    forall i :: offset <= i < end ==> input[i] in {' ', '\t', '\n', '\r'} + extra
  }

  /** Both sides skip blanks, tabs and line ends, the client vertical tabs and form feeds besides, and nothing else. */
  lemma {:induction false} ClientSkipsSpace(input: string, offset: nat)
    requires offset <= |input|
    ensures var end := Client.SkipSpace(input, offset);
      && Blank(input, offset, end, {VERTICAL_TAB, FORM_FEED})
      && (end < |input| ==> input[end] !in {' ', '\t', '\n', '\r', VERTICAL_TAB, FORM_FEED})
    decreases |input| - offset
  {
    if offset < |input| && Client.IsSpace(input[offset]) { ClientSkipsSpace(input, offset + 1); }
  }

  lemma {:induction false} ServerSkipsSpace(input: string, offset: nat)
    requires offset <= |input|
    ensures var end := Server.SkipSpace(input, offset);
      && Blank(input, offset, end, {})
      && (end < |input| ==> input[end] !in {' ', '\t', '\n', '\r'})
    decreases |input| - offset
  {
    if offset < |input| && Server.IsSpace(input[offset]) { ServerSkipsSpace(input, offset + 1); }
  }

  /** A client's document ends where its value does, but for white space. */
  lemma NothingBehind(input: string)
    ensures Client.Document(input).Some? <==>
      Client.Value(input, 0).Some? && Blank(input, Client.Value(input, 0).value.offset, |input|, {VERTICAL_TAB, FORM_FEED})
    ensures Client.Document(input).Some? ==> Client.Document(input).value == Client.Value(input, 0).value.value
  {
    if Client.Value(input, 0).Some? { ClientSkipsSpace(input, Client.Value(input, 0).value.offset); }
  }

  /** What an object already has is never replaced: a repeated name fails it, on either side. */
  lemma RepeatedNameIsRefused(input: string, offset: nat, fields: map<string, Client.JsonValue>, scalars: map<string, Server.Scalar>)
    requires offset <= |input|
    ensures Client.Member(input, offset).Some? && Client.Member(input, offset).value.value.name in fields ==>
      Client.Members(input, offset, fields).None?
    ensures Server.Member(input, offset).Some? && Server.Member(input, offset).value.value.name in scalars ==>
      Server.Members(input, offset, scalars).None?
  {}
}
