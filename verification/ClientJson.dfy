/**
 * The client's JSON parser.  Functions say what is read from an offset of the input; class `JsonParser` reads it,
 * moving its own offset.  The characters of the input stand for its bytes.
 */
module ClientJson {
  import opened Basics
  import opened JsonText
  import Decimal
  import Utf8

  datatype JsonValue =
    | Null
    | Text(text: string)
    | Unsigned(number: nat)
    | Boolean(truth: bool)
    | Object(fields: map<string, JsonValue>)
    | Array(items: seq<JsonValue>)

  predicate IsSpace(c: char) { c in {' ', '\t', '\n', VERTICAL_TAB, FORM_FEED, '\r'} }

  function SkipSpace(input: string, offset: nat): (r: nat)
    requires offset <= |input|
    ensures offset <= r <= |input|
    decreases |input| - offset
  {
    if offset < |input| && IsSpace(input[offset]) then SkipSpace(input, offset + 1) else offset
  }

  // ---------------------------------------------------------------- escapes

  predicate IsHexDigit(c: char) { '0' <= c <= '9' || 'a' <= c <= 'f' || 'A' <= c <= 'F' }

  function HexValue(c: char): (v: nat)
    requires IsHexDigit(c)
    ensures v < 16
  {
    if c <= '9' then (c - '0') as nat else if c <= 'F' then (c - 'A') as nat + 10 else (c - 'a') as nat + 10
  }

  function HexUnit(input: string, offset: nat): (r: Option<nat>)
    ensures r.Some? ==> offset + 4 <= |input| && r.value < 0x10000
  {
    if offset + 4 <= |input| && IsHexDigit(input[offset]) && IsHexDigit(input[offset + 1])
       && IsHexDigit(input[offset + 2]) && IsHexDigit(input[offset + 3])
    then Some(((HexValue(input[offset]) * 16 + HexValue(input[offset + 1])) * 16
               + HexValue(input[offset + 2])) * 16 + HexValue(input[offset + 3]))
    else None
  }

  /** The code point of an escape whose digits start at an offset; a high surrogate needs its low one right behind it. */
  function CodePoint(input: string, offset: nat): (r: Option<Parsed<nat>>)
    ensures r.Some? ==> offset < r.value.offset <= |input| && Utf8.IsScalar(r.value.value)
  {
    var first := HexUnit(input, offset);
    if first.None? then None
    else if Utf8.IsHigh(first.value) then
      if !At(input, offset + 4, '\\') || !At(input, offset + 5, 'u') then None
      else
        var second := HexUnit(input, offset + 6);
        if second.None? || !Utf8.IsLow(second.value) then None
        else Some(Parsed(Utf8.Combine(first.value, second.value), offset + 10))
    else if Utf8.IsLow(first.value) then None
    else Some(Parsed(first.value, offset + 4))
  }

  function Chars(bytes: seq<Utf8.Byte>): string { seq(|bytes|, i requires 0 <= i < |bytes| => bytes[i] as char) }

  /** The text of an escape, from the character behind its backslash. */
  function Escaped(input: string, offset: nat): (r: Option<Parsed<string>>)
    requires offset < |input|
    ensures r.Some? ==> offset < r.value.offset <= |input|
  {
    match input[offset]
    case '"' => Some(Parsed("\"", offset + 1))
    case '\\' => Some(Parsed("\\", offset + 1))
    case '/' => Some(Parsed("/", offset + 1))
    case 'b' => Some(Parsed([BACKSPACE], offset + 1))
    case 'f' => Some(Parsed([FORM_FEED], offset + 1))
    case 'n' => Some(Parsed("\n", offset + 1))
    case 'r' => Some(Parsed("\r", offset + 1))
    case 't' => Some(Parsed("\t", offset + 1))
    case 'u' =>
      (match CodePoint(input, offset + 1)
       case None => None
       case Some(p) => Some(Parsed(Chars(Utf8.Encode(p.value)), p.offset)))
    case _ => None
  }

  // ---------------------------------------------------------------- values

  function StringBody(input: string, offset: nat, sofar: string): (r: Option<Parsed<string>>)
    requires offset <= |input|
    ensures r.Some? ==> offset < r.value.offset <= |input|
    decreases |input| - offset
  {
    if offset == |input| then None
    else if input[offset] == '"' then Some(Parsed(sofar, offset + 1))
    else if IsControl(input[offset]) then None
    else if input[offset] != '\\' then StringBody(input, offset + 1, sofar + [input[offset]])
    else if offset + 1 == |input| then None
    else
      match Escaped(input, offset + 1)
      case None => None
      case Some(p) => StringBody(input, p.offset, sofar + p.value)
  }

  function String(input: string, offset: nat): (r: Option<Parsed<string>>)
    requires offset <= |input|
    ensures r.Some? ==> offset < r.value.offset <= |input|
  {
    var start := SkipSpace(input, offset);
    if At(input, start, '"') then StringBody(input, start + 1, "") else None
  }

  function Number(input: string, offset: nat): (r: Option<Parsed<JsonValue>>)
    requires offset <= |input|
    ensures r.Some? ==> offset < r.value.offset <= |input|
  {
    var end := Decimal.DigitsEnd(input, offset);
    if end == offset || (end - offset > 1 && input[offset] == '0') then None
    else
      match Decimal.FromChars(input[offset..end])
      case None => None
      case Some(n) => Some(Parsed(Unsigned(n), end))
  }

  function Value(input: string, offset: nat): (r: Option<Parsed<JsonValue>>)
    requires offset <= |input|
    ensures r.Some? ==> offset < r.value.offset <= |input|
    decreases |input| - offset, 1
  {
    var start := SkipSpace(input, offset);
    if start == |input| then None
    else if input[start] == '"' then
      match String(input, start)
      case None => None
      case Some(p) => Some(Parsed(Text(p.value), p.offset))
    else if input[start] == '{' then
      var first := SkipSpace(input, start + 1);
      if At(input, first, '}') then Some(Parsed(Object(map[]), first + 1)) else Members(input, first, map[])
    else if input[start] == '[' then
      var first := SkipSpace(input, start + 1);
      if At(input, first, ']') then Some(Parsed(Array([]), first + 1)) else Items(input, first, [])
    else if StartsWith(input, start, "null") then Some(Parsed(Null, start + 4))
    else if StartsWith(input, start, "true") then Some(Parsed(Boolean(true), start + 4))
    else if StartsWith(input, start, "false") then Some(Parsed(Boolean(false), start + 5))
    else Number(input, start)
  }

  datatype Field = Field(name: string, value: JsonValue)

  /** One member of an object: a name, a colon and a value. */
  function Member(input: string, offset: nat): (r: Option<Parsed<Field>>)
    requires offset <= |input|
    ensures r.Some? ==> offset < r.value.offset <= |input|
    decreases |input| - offset, 2
  {
    var name := String(input, offset);
    if name.None? then None
    else
      var colon := SkipSpace(input, name.value.offset);
      if !At(input, colon, ':') then None
      else
        match Value(input, colon + 1)
        case None => None
        case Some(p) => Some(Parsed(Field(name.value.value, p.value), p.offset))
  }

  /** The remaining members of an object, from the name of the next one; a repeated name is an error. */
  function Members(input: string, offset: nat, sofar: map<string, JsonValue>): (r: Option<Parsed<JsonValue>>)
    requires offset <= |input|
    ensures r.Some? ==> offset < r.value.offset <= |input|
    decreases |input| - offset, 3
  {
    match Member(input, offset)
    case None => None
    case Some(p) =>
      if p.value.name in sofar then None
      else MembersAfter(input, p.offset, sofar[p.value.name := p.value.value])
  }

  function MembersAfter(input: string, offset: nat, fields: map<string, JsonValue>): (r: Option<Parsed<JsonValue>>)
    requires offset <= |input|
    ensures r.Some? ==> offset < r.value.offset <= |input|
    decreases |input| - offset, 4
  {
    var next := SkipSpace(input, offset);
    if At(input, next, '}') then Some(Parsed(Object(fields), next + 1))
    else if At(input, next, ',') then Members(input, SkipSpace(input, next + 1), fields)
    else None
  }

  /** The remaining items of an array, from the next one. */
  function Items(input: string, offset: nat, sofar: seq<JsonValue>): (r: Option<Parsed<JsonValue>>)
    requires offset <= |input|
    ensures r.Some? ==> offset < r.value.offset <= |input|
    decreases |input| - offset, 2
  {
    match Value(input, offset)
    case None => None
    case Some(p) => ItemsAfter(input, p.offset, sofar + [p.value])
  }

  function ItemsAfter(input: string, offset: nat, items: seq<JsonValue>): (r: Option<Parsed<JsonValue>>)
    requires offset <= |input|
    ensures r.Some? ==> offset < r.value.offset <= |input|
    decreases |input| - offset, 3
  {
    var next := SkipSpace(input, offset);
    if At(input, next, ']') then Some(Parsed(Array(items), next + 1))
    else if At(input, next, ',') then Items(input, next + 1, items)
    else None
  }

  /** A whole text is one value with nothing but white space around it. */
  function Document(input: string): Option<JsonValue> {
    match Value(input, 0)
    case None => None
    case Some(p) => if SkipSpace(input, p.offset) == |input| then Some(p.value) else None
  }

  lemma ItemsEnd(input: string, offset: nat, items: seq<JsonValue>)
    requires offset <= |input|
    ensures var next := SkipSpace(input, offset);
      && (At(input, next, ']') ==> ItemsAfter(input, offset, items) == Some(Parsed(Array(items), next + 1)))
      && (At(input, next, ',') ==> ItemsAfter(input, offset, items) == Items(input, next + 1, items))
      && (!At(input, next, ']') && !At(input, next, ',') ==> ItemsAfter(input, offset, items) == None)
  {}

  // ---------------------------------------------------------------- writing a string

  /** A character as the client escapes it; most control characters are refused. */
  function EscapeChar(c: char): Option<string> {
    if c == '"' || c == '\\' then Some(['\\', c])
    else if c == BACKSPACE then Some("\\b")
    else if c == FORM_FEED then Some("\\f")
    else if c == '\n' then Some("\\n")
    else if c == '\r' then Some("\\r")
    else if c == '\t' then Some("\\t")
    else if IsControl(c) then None
    else Some([c])
  }

  predicate Escapable(text: string) { text == [] || (EscapeChar(text[0]).Some? && Escapable(text[1..])) }

  function EscapeAll(text: string): string
    requires Escapable(text)
  {
    if text == [] then "" else EscapeChar(text[0]).value + EscapeAll(text[1..])
  }

  lemma {:induction false} EscapeAllAppend(text: string, c: char)
    ensures Escapable(text + [c]) <==> Escapable(text) && EscapeChar(c).Some?
    ensures Escapable(text + [c]) ==> EscapeAll(text + [c]) == EscapeAll(text) + EscapeChar(c).value
  {
    if text == [] {
      assert text + [c] == [c] && [c][1..] == [];
    } else {
      EscapeAllAppend(text[1..], c);
      assert (text + [c])[1..] == text[1..] + [c];
    }
  }

  lemma EscapeStep(text: string, i: nat)
    requires i < |text| && Escapable(text[..i])
    ensures Escapable(text[..i + 1]) <==> EscapeChar(text[i]).Some?
    ensures EscapeChar(text[i]).Some? ==>
      "\"" + EscapeAll(text[..i + 1]) == ("\"" + EscapeAll(text[..i])) + EscapeChar(text[i]).value
  {
    EscapeAllAppend(text[..i], text[i]);
    assert text[..i + 1] == text[..i] + [text[i]];
  }

  function Quoted(text: string): string
    requires Escapable(text)
  {
    "\"" + EscapeAll(text) + "\""
  }

  /** The client's string literal for a text, or a failure. */
  method EscapeJson(text: string) returns (r: Option<string>)
    ensures r.Some? <==> Escapable(text)
    ensures r.Some? ==> r.value == Quoted(text)
  {
    var result := "\"";
    for i := 0 to |text|
      invariant Escapable(text[..i]) && result == "\"" + EscapeAll(text[..i])
    {
      EscapeStep(text, i);
      var escaped := EscapeChar(text[i]);
      if escaped.None? {
        if Escapable(text) { PrefixIsEscapable(text, i + 1); }
        return None;
      }
      result := result + escaped.value;
    }
    assert text[..|text|] == text;
    return Some(result + "\"");
  }

  lemma {:induction false} PrefixIsEscapable(text: string, count: nat)
    requires count <= |text| && Escapable(text)
    ensures Escapable(text[..count])
    decreases |text|
  {
    if count > 0 {
      PrefixIsEscapable(text[1..], count - 1);
      assert text[..count][1..] == text[1..][..count - 1];
    }
  }

  // ---------------------------------------------------------------- the parser

  datatype Separator = Closing | Comma | Neither

  class JsonParser {
    const input: string
    var offset: nat

    constructor (text: string)
      ensures input == text && offset == 0
    {
      input, offset := text, 0;
    }

    /** On success the offset stands behind what was read; it never leaves the input. */
    ghost predicate Reads<T>(before: nat, expected: Option<Parsed<T>>, r: Option<T>)
      reads this
    {
      && before <= offset <= |input|
      && match expected
         case None => r.None?
         case Some(p) => r == Some(p.value) && offset == p.offset
    }

    method Parse() returns (r: Option<JsonValue>)
      requires offset == 0
      modifies this
      ensures r == Document(input) && offset <= |input|
    {
      SkipWhitespace();
      SkipTwice(input, 0);
      var value := ParseValue();
      SkipWhitespace();
      if value.None? || offset != |input| { return None; }
      return value;
    }

    method SkipWhitespace()
      requires offset <= |input|
      modifies this
      ensures offset == SkipSpace(input, old(offset))
    {
      while offset < |input| && IsSpace(input[offset])
        invariant offset <= |input| && SkipSpace(input, offset) == SkipSpace(input, old(offset))
      {
        offset := offset + 1;
      }
    }

    method Consume(expected: char) returns (found: bool)
      requires offset <= |input|
      modifies this
      ensures found == At(input, old(offset), expected)
      ensures offset == if found then old(offset) + 1 else old(offset)
    {
      if offset >= |input| || input[offset] != expected { return false; }
      offset := offset + 1;
      return true;
    }

    method ParseValue() returns (r: Option<JsonValue>)
      requires offset <= |input|
      modifies this
      ensures Reads(old(offset), Value(input, old(offset)), r)
      decreases |input| - offset, 1
    {
      SkipWhitespace();
      if offset >= |input| { return None; }
      if input[offset] == '"' {
        var text := ParseString();
        if text.None? { return None; }
        return Some(Text(text.value));
      }
      if input[offset] == '{' {
        r := ParseObject();
        return;
      }
      if input[offset] == '[' {
        r := ParseArray();
        return;
      }
      if "null" <= input[offset..] {
        offset := offset + 4;
        return Some(Null);
      }
      if "true" <= input[offset..] {
        offset := offset + 4;
        return Some(Boolean(true));
      }
      if "false" <= input[offset..] {
        offset := offset + 5;
        return Some(Boolean(false));
      }
      r := ParseUnsigned();
    }

    /** What follows a member or an item: the closing character, a comma or neither. */
    method ParseSeparator(closing: char) returns (r: Separator)
      requires offset <= |input|
      modifies this
      ensures var next := SkipSpace(input, old(offset));
        && r == (if At(input, next, closing) then Closing else if At(input, next, ',') then Comma else Neither)
        && offset == if r == Neither then next else next + 1
    {
      SkipWhitespace();
      var closes := Consume(closing);
      if closes { return Closing; }
      var more := Consume(',');
      return if more then Comma else Neither;
    }

    method ParseObject() returns (r: Option<JsonValue>)
      requires At(input, offset, '{')
      modifies this
      ensures var first := SkipSpace(input, old(offset) + 1); Reads(old(offset),
        if At(input, first, '}') then Some(Parsed(Object(map[]), first + 1)) else Members(input, first, map[]), r)
      decreases |input| - offset, 0
    {
      var opens := Consume('{');
      SkipWhitespace();
      var empty := Consume('}');
      if empty { return Some(Object(map[])); }
      r := ParseMembers();
    }

    method ParseMembers() returns (r: Option<JsonValue>)
      requires offset <= |input|
      modifies this
      ensures Reads(old(offset), Members(input, old(offset), map[]), r)
      decreases |input| - offset, 3
    {
      var fields: map<string, JsonValue> := map[];
      ghost var start, expected := offset, Members(input, offset, map[]);
      while true
        invariant start <= offset <= |input| && Members(input, offset, fields) == expected
        decreases |input| - offset
      {
        var field := ParseMember();
        if field.None? || field.value.name in fields { return None; }
        fields := fields[field.value.name := field.value.value];
        assert MembersAfter(input, offset, fields) == expected;
        var separator := ParseSeparator('}');
        if separator == Closing { return Some(Object(fields)); }
        if separator == Neither { return None; }
        SkipWhitespace();
      }
    }

    method ParseMember() returns (r: Option<Field>)
      requires offset <= |input|
      modifies this
      ensures Reads(old(offset), Member(input, old(offset)), r)
      decreases |input| - offset, 2
    {
      var name := ParseString();
      if name.None? { return None; }
      SkipWhitespace();
      var colon := Consume(':');
      if !colon { return None; }
      var value := ParseValue();
      if value.None? { return None; }
      return Some(Field(name.value, value.value));
    }

    method ParseArray() returns (r: Option<JsonValue>)
      requires At(input, offset, '[')
      modifies this
      ensures var first := SkipSpace(input, old(offset) + 1); Reads(old(offset),
        if At(input, first, ']') then Some(Parsed(Array([]), first + 1)) else Items(input, first, []), r)
      decreases |input| - offset, 0
    {
      var opens := Consume('[');
      SkipWhitespace();
      var empty := Consume(']');
      if empty { return Some(Array([])); }
      r := ParseItems();
    }

    method ParseItems() returns (r: Option<JsonValue>)
      requires offset <= |input|
      modifies this
      ensures Reads(old(offset), Items(input, old(offset), []), r)
      decreases |input| - offset, 2
    {
      var items: seq<JsonValue> := [];
      ghost var start, expected := offset, Items(input, offset, []);
      while true
        invariant start <= offset <= |input| && Items(input, offset, items) == expected
        decreases |input| - offset
      {
        var value := ParseValue();
        if value.None? { return None; }
        items := items + [value.value];
        ItemsEnd(input, offset, items);
        var separator := ParseSeparator(']');
        if separator == Closing { return Some(Array(items)); }
        if separator == Neither { return None; }
      }
    }

    method ParseString() returns (r: Option<string>)
      requires offset <= |input|
      modifies this
      ensures Reads(old(offset), String(input, old(offset)), r)
    {
      SkipWhitespace();
      var opens := Consume('"');
      if !opens { return None; }
      var text: string := "";
      ghost var start := offset;
      while offset < |input|
        invariant start <= offset <= |input|
        invariant StringBody(input, offset, text) == StringBody(input, start, "")
        decreases |input| - offset
      {
        var c := input[offset];
        offset := offset + 1;
        if c == '"' { return Some(text); }
        if IsControl(c) { return None; }
        if c != '\\' {
          text := text + [c];
          continue;
        }
        if offset >= |input| { return None; }
        var escaped := ParseEscape();
        if escaped.None? { return None; }
        text := text + escaped.value;
      }
      return None;
    }

    method ParseEscape() returns (r: Option<string>)
      requires offset < |input|
      modifies this
      ensures Reads(old(offset), Escaped(input, old(offset)), r)
    {
      var c := input[offset];
      offset := offset + 1;
      match c
      case '"' => r := Some("\"");
      case '\\' => r := Some("\\");
      case '/' => r := Some("/");
      case 'b' => r := Some([BACKSPACE]);
      case 'f' => r := Some([FORM_FEED]);
      case 'n' => r := Some("\n");
      case 'r' => r := Some("\r");
      case 't' => r := Some("\t");
      case 'u' =>
        var point := ParseEscapedCodePoint();
        if point.None? { return None; }
        r := Some(Chars(Utf8.Encode(point.value)));
      case _ => r := None;
    }

    method ParseHexCodeUnit() returns (r: Option<nat>)
      requires offset <= |input|
      modifies this
      ensures old(offset) <= offset <= |input| && r == HexUnit(input, old(offset))
      ensures r.Some? ==> offset == old(offset) + 4
    {
      if offset + 4 > |input| { return None; }
      var value := 0;
      for index := 0 to 4
        invariant offset == old(offset) + index && old(offset) + 4 <= |input|
        invariant HexRun(input, old(offset), index) && value == HexPrefix(input, old(offset), index)
      {
        var c := input[offset];
        offset := offset + 1;
        if !IsHexDigit(c) { return None; }
        value := value * 16 + HexValue(c);
      }
      HexPrefixOfFour(input, old(offset));
      return Some(value);
    }

    method ParseEscapedCodePoint() returns (r: Option<nat>)
      requires offset <= |input|
      modifies this
      ensures Reads(old(offset), CodePoint(input, old(offset)), r)
    {
      var first := ParseHexCodeUnit();
      if first.None? { return None; }
      if 0xD800 <= first.value <= 0xDBFF {
        if offset + 2 > |input| || input[offset] != '\\' || input[offset + 1] != 'u' { return None; }
        offset := offset + 2;
        var second := ParseHexCodeUnit();
        if second.None? || second.value < 0xDC00 || second.value > 0xDFFF { return None; }
        return Some(0x10000 + (first.value - 0xD800) * 0x400 + (second.value - 0xDC00));
      }
      if 0xDC00 <= first.value <= 0xDFFF { return None; }
      return first;
    }

    method ParseUnsigned() returns (r: Option<JsonValue>)
      requires offset <= |input|
      modifies this
      ensures Reads(old(offset), Number(input, old(offset)), r)
    {
      var begin := offset;
      while offset < |input| && '0' <= input[offset] <= '9'
        invariant begin <= offset <= |input| && Decimal.DigitsEnd(input, offset) == Decimal.DigitsEnd(input, begin)
      {
        offset := offset + 1;
      }
      if begin == offset || (offset - begin > 1 && input[begin] == '0') { return None; }
      var number := Decimal.FromChars(input[begin..offset]);
      if number.None? { return None; }
      return Some(Unsigned(number.value));
    }
  }

  predicate HexRun(input: string, offset: nat, count: nat)
    requires offset + count <= |input|
  {
    forall i :: offset <= i < offset + count ==> IsHexDigit(input[i])
  }

  function HexPrefix(input: string, offset: nat, count: nat): nat
    requires offset + count <= |input| && HexRun(input, offset, count)
  {
    if count == 0 then 0 else HexPrefix(input, offset, count - 1) * 16 + HexValue(input[offset + count - 1])
  }

  lemma HexPrefixOfFour(input: string, offset: nat)
    requires offset + 4 <= |input| && HexRun(input, offset, 4)
    ensures HexUnit(input, offset) == Some(HexPrefix(input, offset, 4))
  {
    assert HexPrefix(input, offset, 1) == HexValue(input[offset]);
    assert HexPrefix(input, offset, 2) == HexPrefix(input, offset, 1) * 16 + HexValue(input[offset + 1]);
    assert HexPrefix(input, offset, 3) == HexPrefix(input, offset, 2) * 16 + HexValue(input[offset + 2]);
  }

  lemma {:induction false} SkipTwice(input: string, offset: nat)
    requires offset <= |input|
    ensures SkipSpace(input, SkipSpace(input, offset)) == SkipSpace(input, offset)
    ensures Value(input, SkipSpace(input, offset)) == Value(input, offset)
    decreases |input| - offset
  {
    if offset < |input| && IsSpace(input[offset]) { SkipTwice(input, offset + 1); }
  }
}
