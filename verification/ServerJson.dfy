/** The server's JSON: how it writes strings, and how it reads the flat objects it is sent. */
module ServerJson {
  import opened Basics
  import opened JsonText
  import Decimal

  // ---------------------------------------------------------------- writing a string

  const HEX_DIGITS: string := "0123456789abcdef"

  function EscapeChar(c: char): string {
    if c == '"' then "\\\""
    else if c == '\\' then "\\\\"
    else if c == BACKSPACE then "\\b"
    else if c == FORM_FEED then "\\f"
    else if c == '\n' then "\\n"
    else if c == '\r' then "\\r"
    else if c == '\t' then "\\t"
    else if IsControl(c) then "\\u00" + [HEX_DIGITS[c as nat / 16], HEX_DIGITS[c as nat % 16]]
    else [c]
  }

  function EscapeAll(text: string): string {
    if text == [] then "" else EscapeChar(text[0]) + EscapeAll(text[1..])
  }

  /** The server's string literal for a text. */
  function Quoted(text: string): string { "\"" + EscapeAll(text) + "\"" }

  lemma {:induction false} EscapeAllAppend(text: string, c: char)
    ensures EscapeAll(text + [c]) == EscapeAll(text) + EscapeChar(c)
  {
    if text == [] {
      assert text + [c] == [c] && [c][1..] == [];
    } else {
      EscapeAllAppend(text[1..], c);
      assert (text + [c])[1..] == text[1..] + [c];
      Regroup(EscapeChar(text[0]), EscapeAll(text[1..]), EscapeChar(c));
    }
  }

  lemma EscapeStep(text: string, i: nat)
    requires i < |text|
    ensures "\"" + EscapeAll(text[..i + 1]) == ("\"" + EscapeAll(text[..i])) + EscapeChar(text[i])
  {
    EscapeAllAppend(text[..i], text[i]);
    assert text[..i + 1] == text[..i] + [text[i]];
  }

  method EscapeJson(text: string) returns (escaped: string)
    ensures escaped == Quoted(text)
  {
    escaped := "\"";
    for i := 0 to |text|
      invariant escaped == "\"" + EscapeAll(text[..i])
    {
      EscapeStep(text, i);
      escaped := escaped + EscapeChar(text[i]);
    }
    assert text[..|text|] == text;
    escaped := escaped + "\"";
  }

  // ---------------------------------------------------------------- reading a flat object

  datatype Scalar = Text(text: string) | Unsigned(number: nat) | Boolean(truth: bool)

  predicate IsSpace(c: char) { c == ' ' || c == '\t' || c == '\r' || c == '\n' }

  function SkipSpace(input: string, offset: nat): (r: nat)
    requires offset <= |input|
    ensures offset <= r <= |input|
    decreases |input| - offset
  {
    if offset < |input| && IsSpace(input[offset]) then SkipSpace(input, offset + 1) else offset
  }

  /** The character a short escape stands for; the server reads no others. */
  function Unescape(c: char): Option<char> {
    match c
    case '"' => Some('"')
    case '\\' => Some('\\')
    case '/' => Some('/')
    case 'b' => Some(BACKSPACE)
    case 'f' => Some(FORM_FEED)
    case 'n' => Some('\n')
    case 'r' => Some('\r')
    case 't' => Some('\t')
    case _ => None
  }

  function StringBody(input: string, offset: nat, sofar: string): (r: Option<Parsed<string>>)
    requires offset <= |input|
    ensures r.Some? ==> offset < r.value.offset <= |input|
    decreases |input| - offset
  {
    if offset == |input| then None
    else if input[offset] == '"' then Some(Parsed(sofar, offset + 1))
    else if input[offset] != '\\' then
      if IsControl(input[offset]) then None else StringBody(input, offset + 1, sofar + [input[offset]])
    else if offset + 1 == |input| || Unescape(input[offset + 1]).None? then None
    else StringBody(input, offset + 2, sofar + [Unescape(input[offset + 1]).value])
  }

  function String(input: string, offset: nat): (r: Option<Parsed<string>>)
    requires offset <= |input|
    ensures r.Some? ==> offset < r.value.offset <= |input|
  {
    if At(input, offset, '"') then StringBody(input, offset + 1, "") else None
  }

  function Number(input: string, offset: nat): (r: Option<Parsed<nat>>)
    requires offset <= |input|
    ensures r.Some? ==> offset < r.value.offset <= |input|
  {
    var end := Decimal.DigitsEnd(input, offset);
    if end == offset then None
    else
      match Decimal.FromChars(input[offset..end])
      case None => None
      case Some(n) => Some(Parsed(n, end))
  }

  function ScalarAt(input: string, offset: nat): (r: Option<Parsed<Scalar>>)
    requires offset <= |input|
    ensures r.Some? ==> offset < r.value.offset <= |input|
  {
    if At(input, offset, '"') then
      match String(input, offset)
      case None => None
      case Some(p) => Some(Parsed(Text(p.value), p.offset))
    else if StartsWith(input, offset, "true") then Some(Parsed(Boolean(true), offset + 4))
    else if StartsWith(input, offset, "false") then Some(Parsed(Boolean(false), offset + 5))
    else
      match Number(input, offset)
      case None => None
      case Some(p) => Some(Parsed(Unsigned(p.value), p.offset))
  }

  datatype Field = Field(name: string, value: Scalar)

  function Member(input: string, offset: nat): (r: Option<Parsed<Field>>)
    requires offset <= |input|
    ensures r.Some? ==> offset < r.value.offset <= |input|
  {
    var name := String(input, offset);
    if name.None? then None
    else
      var colon := SkipSpace(input, name.value.offset);
      if !At(input, colon, ':') then None
      else
        match ScalarAt(input, SkipSpace(input, colon + 1))
        case None => None
        case Some(p) => Some(Parsed(Field(name.value.value, p.value), p.offset))
  }

  function Members(input: string, offset: nat, sofar: map<string, Scalar>): Option<map<string, Scalar>>
    requires offset <= |input|
    decreases |input| - offset, 0
  {
    match Member(input, offset)
    case None => None
    case Some(p) =>
      if p.value.name in sofar then None
      else MembersAfter(input, p.offset, sofar[p.value.name := p.value.value])
  }

  function MembersAfter(input: string, offset: nat, fields: map<string, Scalar>): Option<map<string, Scalar>>
    requires offset <= |input|
    decreases |input| - offset, 1
  {
    var next := SkipSpace(input, offset);
    if At(input, next, '}') then if SkipSpace(input, next + 1) == |input| then Some(fields) else None
    else if At(input, next, ',') then Members(input, SkipSpace(input, next + 1), fields)
    else None
  }

  /** A flat object of strings, numbers and truth values, with no name twice and nothing behind it. */
  function FlatObject(input: string): Option<map<string, Scalar>> {
    var start := SkipSpace(input, 0);
    if !At(input, start, '{') then None
    else
      var first := SkipSpace(input, start + 1);
      if At(input, first, '}') then if SkipSpace(input, first + 1) == |input| then Some(map[]) else None
      else Members(input, first, map[])
  }

  method SkipWhitespace(input: string, offset: nat) returns (position: nat)
    requires offset <= |input|
    ensures position == SkipSpace(input, offset)
  {
    position := offset;
    while position < |input|
      invariant offset <= position <= |input| && SkipSpace(input, position) == SkipSpace(input, offset)
    {
      if !IsSpace(input[position]) { break; }
      position := position + 1;
    }
  }

  method ParseJsonString(input: string, offset: nat) returns (r: Option<string>, position: nat)
    requires offset <= |input|
    ensures offset <= position <= |input|
    ensures match String(input, offset)
      case None => r.None?
      case Some(p) => r == Some(p.value) && position == p.offset
  {
    position := offset;
    if position >= |input| || input[position] != '"' { return None, position; }
    position := position + 1;
    var value: string := "";
    while position < |input|
      invariant offset < position <= |input|
      invariant StringBody(input, position, value) == StringBody(input, offset + 1, "")
    {
      var c := input[position];
      position := position + 1;
      if c == '"' { return Some(value), position; }
      if c != '\\' {
        if IsControl(c) { return None, position; }
        value := value + [c];
        continue;
      }
      if position >= |input| { return None, position; }
      var meant := Unescape(input[position]);
      position := position + 1;
      if meant.None? { return None, position; }
      value := value + [meant.value];
    }
    return None, position;
  }

  method ParseJsonUnsigned(input: string, offset: nat) returns (r: Option<nat>, position: nat)
    requires offset <= |input|
    ensures offset <= position <= |input|
    ensures match Number(input, offset)
      case None => r.None?
      case Some(p) => r == Some(p.value) && position == p.offset
  {
    var last := offset;
    while last < |input| && '0' <= input[last] <= '9'
      invariant offset <= last <= |input| && Decimal.DigitsEnd(input, last) == Decimal.DigitsEnd(input, offset)
    {
      last := last + 1;
    }
    if last == offset { return None, offset; }
    var value := Decimal.FromChars(input[offset..last]);
    if value.None? { return None, offset; }
    return value, last;
  }

  method ParseMember(input: string, offset: nat) returns (r: Option<Field>, position: nat)
    requires offset <= |input|
    ensures offset <= position <= |input|
    ensures match Member(input, offset)
      case None => r.None?
      case Some(p) => r == Some(p.value) && position == p.offset
  {
    var key;
    key, position := ParseJsonString(input, offset);
    if key.None? { return None, position; }
    position := SkipWhitespace(input, position);
    if position >= |input| || input[position] != ':' { return None, position; }
    position := SkipWhitespace(input, position + 1);
    if position < |input| && input[position] == '"' {
      var text;
      text, position := ParseJsonString(input, position);
      if text.None? { return None, position; }
      return Some(Field(key.value, Text(text.value))), position;
    }
    if "true" <= input[position..] { return Some(Field(key.value, Boolean(true))), position + 4; }
    if "false" <= input[position..] { return Some(Field(key.value, Boolean(false))), position + 5; }
    var number;
    number, position := ParseJsonUnsigned(input, position);
    if number.None? { return None, position; }
    return Some(Field(key.value, Unsigned(number.value))), position;
  }

  /** Reading ends in every case, with an object exactly where there is one. */
  method ParseFlatJsonObject(input: string) returns (r: Option<map<string, Scalar>>)
    ensures r == FlatObject(input)
  {
    var position := SkipWhitespace(input, 0);
    if position >= |input| || input[position] != '{' { return None; }
    position := SkipWhitespace(input, position + 1);
    if position < |input| && input[position] == '}' {
      position := SkipWhitespace(input, position + 1);
      return if position == |input| then Some(map[]) else None;
    }
    r := ParseMembers(input, position);
  }

  /** What stands behind a member: another one from an offset on, the end of the text, or neither. */
  datatype MemberEnd = More(next: nat) | Complete | Broken

  function MemberEndAt(input: string, offset: nat): (end: MemberEnd)
    requires offset <= |input|
    ensures end.More? ==> offset < end.next <= |input|
  {
    var next := SkipSpace(input, offset);
    if At(input, next, '}') then if SkipSpace(input, next + 1) == |input| then Complete else Broken
    else if At(input, next, ',') then More(SkipSpace(input, next + 1))
    else Broken
  }

  lemma MembersEnd(input: string, offset: nat, fields: map<string, Scalar>)
    requires offset <= |input|
    ensures MembersAfter(input, offset, fields) == match MemberEndAt(input, offset)
      case More(next) => Members(input, next, fields)
      case Complete => Some(fields)
      case Broken => None
  {}

  method ParseMemberEnd(input: string, offset: nat) returns (end: MemberEnd)
    requires offset <= |input|
    ensures end == MemberEndAt(input, offset)
  {
    var position := SkipWhitespace(input, offset);
    if position >= |input| { return Broken; }
    if input[position] == '}' {
      position := SkipWhitespace(input, position + 1);
      return if position == |input| then Complete else Broken;
    }
    if input[position] != ',' { return Broken; }
    position := SkipWhitespace(input, position + 1);
    return More(position);
  }

  method ParseMembers(input: string, start: nat) returns (r: Option<map<string, Scalar>>)
    requires start <= |input|
    ensures r == Members(input, start, map[])
  {
    var position := start;
    var fields: map<string, Scalar> := map[];
    ghost var expected := Members(input, start, map[]);
    while position < |input|
      invariant position <= |input| && Members(input, position, fields) == expected
      decreases |input| - position
    {
      var field;
      field, position := ParseMember(input, position);
      if field.None? || field.value.name in fields { return None; }
      fields := fields[field.value.name := field.value.value];
      assert MembersAfter(input, position, fields) == expected;
      MembersEnd(input, position, fields);
      var end := ParseMemberEnd(input, position);
      if end == Complete { return Some(fields); }
      if end == Broken { return None; }
      position := end.next;
    }
    return None;
  }
}
