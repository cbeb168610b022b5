/** What one end of the wire prints, the other end reads back. */
module JsonRoundTrip {
  import opened Basics
  import opened JsonText
  import Decimal
  import Utf8
  import Client = ClientJson
  import Server = ServerJson

  // ---------------------------------------------------------------- strings, server to client

  lemma EscapeStands(input: string, offset: nat, c: char)
    requires offset <= |input| && Stands(input, offset, Server.EscapeChar(c))
    ensures var escape := Server.EscapeChar(c);
      offset + |escape| <= |input| && forall i {:trigger escape[i]} :: 0 <= i < |escape| ==> input[offset + i] == escape[i]
  {
    var escape := Server.EscapeChar(c);
    StandsIsSlice(input, offset, escape);
    assert forall i {:trigger escape[i]} :: 0 <= i < |escape| ==> input[offset + i] == input[offset..offset + |escape|][i];
  }

  /** The client reads one escaped character as the character. */
  lemma EscapedCharIsRead(input: string, offset: nat, c: char, sofar: string)
    requires offset <= |input| && Stands(input, offset, Server.EscapeChar(c))
    ensures var next := offset + |Server.EscapeChar(c)|;
      next <= |input| && Client.StringBody(input, offset, sofar) == Client.StringBody(input, next, sofar + [c])
  {
    var escape := Server.EscapeChar(c);
    EscapeStands(input, offset, c);
    assert input[offset] == escape[0];
    if escape[0] == '\\' {
      assert input[offset + 1] == escape[1];
      if escape[1] == 'u' { UnicodeEscapeIsRead(input, offset, c); }
    }
  }

  lemma UnicodeEscapeIsRead(input: string, offset: nat, c: char)
    requires offset <= |input| && IsControl(c) && c != BACKSPACE && c != FORM_FEED && c !in {'\n', '\r', '\t'}
    requires Stands(input, offset, Server.EscapeChar(c))
    ensures offset + 6 <= |input| && Client.Escaped(input, offset + 1) == Some(Parsed([c], offset + 6))
  {
    var escape := Server.EscapeChar(c);
    EscapeStands(input, offset, c);
    assert c as nat < 32;
    assert input[offset + 1] == escape[1] && input[offset + 2] == escape[2] && input[offset + 3] == escape[3];
    assert input[offset + 4] == escape[4] && input[offset + 5] == escape[5];
    HexDigitIsRead(c as nat / 16);
    HexDigitIsRead(c as nat % 16);
    assert Client.HexUnit(input, offset + 2) == Some(c as nat);
    assert Client.Chars(Utf8.Encode(c as nat)) == [c];
  }

  lemma HexDigitIsRead(n: nat)
    requires n < 16
    ensures Client.IsHexDigit(Server.HEX_DIGITS[n]) && Client.HexValue(Server.HEX_DIGITS[n]) == n
  {
    assert Server.HEX_DIGITS == "0123456789abcdef";
    assert n == 0 || n == 1 || n == 2 || n == 3 || n == 4 || n == 5 || n == 6 || n == 7
      || n == 8 || n == 9 || n == 10 || n == 11 || n == 12 || n == 13 || n == 14 || n == 15;
  }

  lemma EscapedParts(input: string, offset: nat, text: string)
    requires text != [] && offset <= |input| && Stands(input, offset, Server.EscapeAll(text) + "\"")
    ensures var first := Server.EscapeChar(text[0]);
      && Stands(input, offset, first) && offset + |first| <= |input|
      && Stands(input, offset + |first|, Server.EscapeAll(text[1..]) + "\"")
      && |Server.EscapeAll(text)| == |first| + |Server.EscapeAll(text[1..])|
  {
    var first, rest := Server.EscapeChar(text[0]), Server.EscapeAll(text[1..]) + "\"";
    assert Server.EscapeAll(text) + "\"" == first + rest;
    Parts(input, offset, first, rest);
  }

  lemma EscapedEndIsRead(input: string, offset: nat, sofar: string)
    requires At(input, offset, '"')
    ensures Client.StringBody(input, offset, sofar) == Some(Parsed(sofar, offset + 1))
  {}

  lemma {:induction false} EscapedTextIsRead(input: string, offset: nat, text: string, sofar: string, end: nat)
    requires offset <= |input| && Stands(input, offset, Server.EscapeAll(text) + "\"")
    requires end == offset + |Server.EscapeAll(text)| + 1
    ensures Client.StringBody(input, offset, sofar) == Some(Parsed(sofar + text, end))
    decreases |text|
  {
    if text == [] {
      assert Server.EscapeAll(text) + "\"" == "\"" && sofar + text == sofar;
      EscapedEndIsRead(input, offset, sofar);
    } else {
      var next := offset + |Server.EscapeChar(text[0])|;
      EscapedParts(input, offset, text);
      calc {
        Client.StringBody(input, offset, sofar);
        { EscapedCharIsRead(input, offset, text[0], sofar); }
        Client.StringBody(input, next, sofar + [text[0]]);
        { EscapedTextIsRead(input, next, text[1..], sofar + [text[0]], end); }
        Some(Parsed(sofar + [text[0]] + text[1..], end));
        { TakeFirst(sofar, text); }
        Some(Parsed(sofar + text, end));
      }
    }
  }

  lemma QuotedParts(input: string, offset: nat, text: string)
    requires offset <= |input| && Stands(input, offset, Server.Quoted(text))
    ensures At(input, offset, '"') && Stands(input, offset + 1, Server.EscapeAll(text) + "\"")
    ensures |Server.Quoted(text)| == |Server.EscapeAll(text)| + 2
  {
    assert Server.Quoted(text) == "\"" + (Server.EscapeAll(text) + "\"");
    Parts(input, offset, "\"", Server.EscapeAll(text) + "\"");
  }

  /** Every byte string the server quotes is read back by the client, whatever stands behind it. */
  lemma QuotedIsRead(input: string, offset: nat, text: string)
    requires offset <= |input| && Stands(input, offset, Server.Quoted(text))
    ensures Client.String(input, offset) == Some(Parsed(text, offset + |Server.Quoted(text)|))
  {
    QuotedParts(input, offset, text);
    calc {
      Client.String(input, offset);
      { StringStarts(input, offset); }
      Client.StringBody(input, offset + 1, "");
      { EscapedTextIsRead(input, offset + 1, text, "", offset + |Server.Quoted(text)|); }
      Some(Parsed("" + text, offset + |Server.Quoted(text)|));
      { assert "" + text == text; }
      Some(Parsed(text, offset + |Server.Quoted(text)|));
    }
  }

  lemma StringStarts(input: string, offset: nat)
    requires At(input, offset, '"')
    ensures Client.String(input, offset) == Client.StringBody(input, offset + 1, "")
  {}

  // ---------------------------------------------------------------- whole values, server to client

  /** A JSON value as the server puts its bodies together, with its members in their order. */
  datatype Tree =
    | Nothing
    | Text(text: string)
    | Number(number: nat)
    | Truth(truth: bool)
    | Object(members: seq<Named>)
    | Array(items: seq<Tree>)

  datatype Named = Named(name: string, value: Tree)

  function Print(t: Tree): string {
    match t
    case Nothing => "null"
    case Text(text) => Server.Quoted(text)
    case Number(n) => Decimal.Print(n)
    case Truth(b) => if b then "true" else "false"
    case Object(members) => "{" + PrintMembers(members) + "}"
    case Array(items) => "[" + PrintItems(items) + "]"
  }

  function PrintMember(m: Named): string { Server.Quoted(m.name) + ":" + Print(m.value) }

  function PrintMembers(members: seq<Named>): string {
    if members == [] then ""
    else PrintMember(members[0]) + if |members| == 1 then "" else "," + PrintMembers(members[1..])
  }

  function PrintItems(items: seq<Tree>): string {
    if items == [] then "" else Print(items[0]) + if |items| == 1 then "" else "," + PrintItems(items[1..])
  }

  /** What a printed value means to the client. */
  function Meaning(t: Tree): Client.JsonValue {
    match t
    case Nothing => Client.Null
    case Text(text) => Client.Text(text)
    case Number(n) => Client.Unsigned(n)
    case Truth(b) => Client.Boolean(b)
    case Object(members) => Client.Object(MeaningOfMembers(members))
    case Array(items) => Client.Array(MeaningOfItems(items))
  }

  function MeaningOfMembers(members: seq<Named>): map<string, Client.JsonValue> {
    if members == [] then map[] else map[members[0].name := Meaning(members[0].value)] + MeaningOfMembers(members[1..])
  }

  function MeaningOfItems(items: seq<Tree>): seq<Client.JsonValue> {
    if items == [] then [] else [Meaning(items[0])] + MeaningOfItems(items[1..])
  }

  /** Numbers fit 64 bits and no object names a member twice. */
  predicate Sendable(t: Tree) {
    match t
    case Number(n) => n < UINT64_SIZE
    case Object(members) => MembersSendable(members)
    case Array(items) => ItemsSendable(items)
    case _ => true
  }

  predicate Names(members: seq<Named>, name: string) {
    members != [] && (members[0].name == name || Names(members[1..], name))
  }

  predicate MembersSendable(members: seq<Named>) {
    members == [] || (Sendable(members[0].value) && !Names(members[1..], members[0].name) && MembersSendable(members[1..]))
  }

  predicate ItemsSendable(items: seq<Tree>) {
    items == [] || (Sendable(items[0]) && ItemsSendable(items[1..]))
  }

  /** Each member means its own value, under its own name. */
  lemma {:induction false} MemberIsMeant(members: seq<Named>, i: nat)
    requires MembersSendable(members) && i < |members|
    ensures members[i].name in MeaningOfMembers(members) && MeaningOfMembers(members)[members[i].name] == Meaning(members[i].value)
    ensures i > 0 ==> members[i].name != members[0].name
  {
    if i == 0 {
      NotNamedAgain(members[1..], members[0].name);
    } else {
      MemberIsMeant(members[1..], i - 1);
      NamedAt(members[1..], i - 1);
    }
  }

  lemma {:induction false} NotNamedAgain(members: seq<Named>, name: string)
    requires !Names(members, name)
    ensures name !in MeaningOfMembers(members)
  {
    if members != [] { NotNamedAgain(members[1..], name); }
  }

  lemma {:induction false} NamedAt(members: seq<Named>, i: nat)
    requires i < |members|
    ensures Names(members, members[i].name)
  {
    if i > 0 { NamedAt(members[1..], i - 1); }
  }

  lemma {:induction false} ItemIsMeant(items: seq<Tree>)
    ensures |MeaningOfItems(items)| == |items|
    ensures forall i :: 0 <= i < |items| ==> MeaningOfItems(items)[i] == Meaning(items[i])
  {
    if items != [] { ItemIsMeant(items[1..]); }
  }

  lemma NumberStands(input: string, offset: nat, n: nat)
    requires offset <= |input| && Stands(input, offset, Decimal.Print(n))
    ensures var end := offset + |Decimal.Print(n)|; end <= |input| && input[offset..end] == Decimal.Print(n)
  {
    StandsIsSlice(input, offset, Decimal.Print(n));
  }

  /** This value was read up to here. */
  predicate IsValue(r: Option<Parsed<Client.JsonValue>>, value: Client.JsonValue, end: nat) {
    r.Some? && r.value.offset == end && r.value.value == value
  }

  predicate IsMember(r: Option<Parsed<Client.Field>>, name: string, value: Client.JsonValue, end: nat) {
    r.Some? && r.value.offset == end && r.value.value.name == name && r.value.value.value == value
  }

  lemma NumberIsRead(input: string, offset: nat, n: nat)
    requires offset <= |input| && Stands(input, offset, Decimal.Print(n)) && n < UINT64_SIZE
    requires Decimal.Delimited(input, offset + |Decimal.Print(n)|)
    ensures IsValue(Client.Value(input, offset), Client.Unsigned(n), offset + |Decimal.Print(n)|)
  {
    NumberStands(input, offset, n);
    Decimal.DigitsOfNumber(input, offset, offset + |Decimal.Print(n)|, n);
    Decimal.PrintReads(n);
    NoWordAtDigit(input, offset);
  }

  lemma WordIsRead(input: string, offset: nat, t: Tree)
    requires (t.Nothing? || t.Truth?) && offset <= |input| && Stands(input, offset, Print(t))
    ensures IsValue(Client.Value(input, offset), Meaning(t), offset + |Print(t)|)
  {
    StandsIsSlice(input, offset, Print(t));
    assert input[offset..][..|Print(t)|] == Print(t);
    assert input[offset..][0] == input[offset];
    assert Client.SkipSpace(input, offset) == offset;
  }

  lemma BracketParts(input: string, offset: nat, opening: char, body: string, closing: char)
    requires offset <= |input| && Stands(input, offset, [opening] + body + [closing])
    ensures At(input, offset, opening) && Stands(input, offset + 1, body + [closing])
  {
    assert [opening] + body + [closing] == [opening] + (body + [closing]);
    Parts(input, offset, [opening], body + [closing]);
  }

  lemma {:induction false} ValueIsRead(t: Tree, input: string, offset: nat)
    requires Sendable(t) && offset <= |input| && Stands(input, offset, Print(t))
    requires Decimal.Delimited(input, offset + |Print(t)|)
    ensures IsValue(Client.Value(input, offset), Meaning(t), offset + |Print(t)|)
    decreases t
  {
    match t
    case Object(members) =>
      ObjectParts(members, input, offset);
      if members != [] { AllMembersAreRead(members, input, offset + 1); }
      ObjectIsRead(members, input, offset);
    case Array(items) =>
      ArrayParts(items, input, offset);
      if items != [] { AllItemsAreRead(items, input, offset + 1); }
      ArrayIsRead(items, input, offset);
    case _ => LeafIsRead(t, input, offset);
  }

  lemma {:induction false} AllMembersAreRead(members: seq<Named>, input: string, offset: nat)
    requires members != [] && MembersSendable(members)
    requires offset <= |input| && Stands(input, offset, PrintMembers(members) + "}")
    ensures IsObject(Client.Members(input, offset, map[]), MeaningOfMembers(members), offset + |PrintMembers(members)| + 1)
    decreases members, 1
  {
    AbsentFromNone(members);
    assert map[] + MeaningOfMembers(members) == MeaningOfMembers(members);
    MembersAreRead(members, input, offset, map[]);
  }

  lemma {:induction false} AllItemsAreRead(items: seq<Tree>, input: string, offset: nat)
    requires items != [] && ItemsSendable(items)
    requires offset <= |input| && Stands(input, offset, PrintItems(items) + "]")
    ensures IsArray(Client.Items(input, offset, []), MeaningOfItems(items), offset + |PrintItems(items)| + 1)
    decreases items, 1
  {
    CollectsFromNone(items);
    ItemsAreRead(items, input, offset, [], MeaningOfItems(items));
  }

  lemma LeafIsRead(t: Tree, input: string, offset: nat)
    requires !t.Object? && !t.Array? && Sendable(t)
    requires offset <= |input| && Stands(input, offset, Print(t)) && Decimal.Delimited(input, offset + |Print(t)|)
    ensures IsValue(Client.Value(input, offset), Meaning(t), offset + |Print(t)|)
  {
    match t
    case Number(n) => NumberIsRead(input, offset, n);
    case Text(text) => TextIsRead(input, offset, text);
    case _ => WordIsRead(input, offset, t);
  }

  lemma ObjectParts(members: seq<Named>, input: string, offset: nat)
    requires offset <= |input| && Stands(input, offset, Print(Object(members)))
    ensures At(input, offset, '{') && Stands(input, offset + 1, PrintMembers(members) + "}")
    ensures |Print(Object(members))| == |PrintMembers(members)| + 2
  {
    BracketParts(input, offset, '{', PrintMembers(members), '}');
  }

  lemma ArrayParts(items: seq<Tree>, input: string, offset: nat)
    requires offset <= |input| && Stands(input, offset, Print(Array(items)))
    ensures At(input, offset, '[') && Stands(input, offset + 1, PrintItems(items) + "]")
    ensures |Print(Array(items))| == |PrintItems(items)| + 2
  {
    BracketParts(input, offset, '[', PrintItems(items), ']');
  }

  lemma TextIsRead(input: string, offset: nat, text: string)
    requires offset <= |input| && Stands(input, offset, Server.Quoted(text))
    ensures IsValue(Client.Value(input, offset), Client.Text(text), offset + |Server.Quoted(text)|)
  {
    QuotedIsRead(input, offset, text);
    QuotedParts(input, offset, text);
  }

  /** An object with these fields was read up to here. */
  predicate IsObject(r: Option<Parsed<Client.JsonValue>>, fields: map<string, Client.JsonValue>, end: nat) {
    r.Some? && r.value.offset == end && r.value.value.Object? && r.value.value.fields == fields
  }

  predicate IsArray(r: Option<Parsed<Client.JsonValue>>, items: seq<Client.JsonValue>, end: nat) {
    r.Some? && r.value.offset == end && r.value.value.Array? && r.value.value.items == items
  }

  lemma ObjectIsRead(members: seq<Named>, input: string, offset: nat)
    requires At(input, offset, '{') && Stands(input, offset + 1, PrintMembers(members) + "}")
    requires members != [] ==>
      IsObject(Client.Members(input, offset + 1, map[]), MeaningOfMembers(members), offset + |PrintMembers(members)| + 2)
    ensures IsValue(Client.Value(input, offset), Client.Object(MeaningOfMembers(members)), offset + |PrintMembers(members)| + 2)
  {
    if members == [] {
      assert PrintMembers(members) + "}" == "}";
      EmptyIsRead(input, offset);
    } else {
      MemberParts(members, input, offset + 1);
      ObjectStep(input, offset, MeaningOfMembers(members), offset + |PrintMembers(members)| + 2);
    }
  }

  lemma EmptyIsRead(input: string, offset: nat)
    requires offset <= |input| && At(input, offset, '{') && At(input, offset + 1, '}')
    ensures IsValue(Client.Value(input, offset), Client.Object(map[]), offset + 2)
  {}

  lemma ObjectStep(input: string, offset: nat, fields: map<string, Client.JsonValue>, end: nat)
    requires offset <= |input| && At(input, offset, '{') && At(input, offset + 1, '"')
    requires IsObject(Client.Members(input, offset + 1, map[]), fields, end)
    ensures IsValue(Client.Value(input, offset), Client.Object(fields), end)
  {}

  lemma ArrayIsRead(items: seq<Tree>, input: string, offset: nat)
    requires At(input, offset, '[') && Stands(input, offset + 1, PrintItems(items) + "]")
    requires items != [] ==>
      IsArray(Client.Items(input, offset + 1, []), MeaningOfItems(items), offset + |PrintItems(items)| + 2)
    ensures IsValue(Client.Value(input, offset), Client.Array(MeaningOfItems(items)), offset + |PrintItems(items)| + 2)
  {
    if items == [] {
      assert PrintItems(items) + "]" == "]";
    } else {
      ItemParts(items, input, offset + 1);
    }
  }

  lemma NameParts(m: Named, input: string, offset: nat)
    requires offset <= |input| && Stands(input, offset, PrintMember(m))
    ensures var name := Server.Quoted(m.name);
      && Stands(input, offset, name) && At(input, offset, '"') && At(input, offset + |name|, ':')
      && Stands(input, offset + |name| + 1, Print(m.value))
      && |PrintMember(m)| == |name| + 1 + |Print(m.value)|
  {
    var name := Server.Quoted(m.name);
    assert PrintMember(m) == name + (":" + Print(m.value));
    Parts(input, offset, name, ":" + Print(m.value));
    Parts(input, offset + |name|, ":", Print(m.value));
    QuotedParts(input, offset, m.name);
  }

  /** The first member stands at the start, the others behind a comma. */
  lemma MemberParts(members: seq<Named>, input: string, offset: nat)
    requires members != [] && offset <= |input| && Stands(input, offset, PrintMembers(members) + "}")
    ensures var first := PrintMember(members[0]); var next := offset + |first|;
      && Stands(input, offset, first) && At(input, offset, '"')
      && (|members| == 1 ==> At(input, next, '}') && |PrintMembers(members)| == |first|)
      && (|members| > 1 ==> At(input, next, ',') && Stands(input, next + 1, PrintMembers(members[1..]) + "}"))
      && (|members| > 1 ==> |PrintMembers(members)| == |first| + 1 + |PrintMembers(members[1..])|)
  {
    var first := PrintMember(members[0]);
    if |members| == 1 {
      assert PrintMembers(members) + "}" == first + "}";
      Parts(input, offset, first, "}");
    } else {
      var rest := PrintMembers(members[1..]) + "}";
      assert PrintMembers(members) + "}" == first + ("," + rest);
      Parts(input, offset, first, "," + rest);
      Parts(input, offset + |first|, ",", rest);
    }
    NameParts(members[0], input, offset);
  }

  lemma PrintStarts(t: Tree)
    ensures Print(t) != [] && !Client.IsSpace(Print(t)[0]) && Print(t)[0] != ']'
  {
    match t
    case Number(n) => Decimal.PrintReads(n); assert Print(t)[0] in Print(t) && Decimal.IsDigit(Print(t)[0]);
    case Text(text) => assert Print(t)[0] == '"';
    case Object(members) => assert Print(t)[0] == '{';
    case Array(items) => assert Print(t)[0] == '[';
    case Nothing =>
    case Truth(_) =>
  }

  lemma ItemParts(items: seq<Tree>, input: string, offset: nat)
    requires items != [] && offset <= |input| && Stands(input, offset, PrintItems(items) + "]")
    ensures var first := Print(items[0]); var next := offset + |first|;
      && Stands(input, offset, first)
      && offset < |input| && input[offset] != ']' && Client.SkipSpace(input, offset) == offset
      && (|items| == 1 ==> At(input, next, ']') && |PrintItems(items)| == |first|)
      && (|items| > 1 ==> At(input, next, ',') && Stands(input, next + 1, PrintItems(items[1..]) + "]"))
      && (|items| > 1 ==> |PrintItems(items)| == |first| + 1 + |PrintItems(items[1..])|)
  {
    var first := Print(items[0]);
    if |items| == 1 {
      assert PrintItems(items) + "]" == first + "]";
      Parts(input, offset, first, "]");
    } else {
      var rest := PrintItems(items[1..]) + "]";
      assert PrintItems(items) + "]" == first + ("," + rest);
      Parts(input, offset, first, "," + rest);
      Parts(input, offset + |first|, ",", rest);
    }
    PrintStarts(items[0]);
    assert first == [first[0]] + first[1..];
    Parts(input, offset, [first[0]], first[1..]);
  }

  lemma {:induction false} MemberIsRead(m: Named, input: string, offset: nat)
    requires Sendable(m.value) && offset <= |input| && Stands(input, offset, PrintMember(m))
    requires Decimal.Delimited(input, offset + |PrintMember(m)|)
    ensures IsMember(Client.Member(input, offset), m.name, Meaning(m.value), offset + |PrintMember(m)|)
    decreases m
  {
    var colon := offset + |Server.Quoted(m.name)|;
    NameParts(m, input, offset);
    QuotedIsRead(input, offset, m.name);
    NamedValueIsRead(m, input, offset, colon, offset + |PrintMember(m)|);
  }

  lemma NamedValueIsRead(m: Named, input: string, offset: nat, colon: nat, end: nat)
    requires Sendable(m.value) && offset <= |input| && Client.String(input, offset) == Some(Parsed(m.name, colon)) && At(input, colon, ':')
    requires Stands(input, colon + 1, Print(m.value)) && end == colon + 1 + |Print(m.value)| && Decimal.Delimited(input, end)
    ensures IsMember(Client.Member(input, offset), m.name, Meaning(m.value), end)
    decreases m, 0
  {
    ValueIsRead(m.value, input, colon + 1);
    MemberStep(input, offset, m.name, colon, Meaning(m.value), end);
  }

  lemma MemberStep(input: string, offset: nat, name: string, colon: nat, value: Client.JsonValue, end: nat)
    requires offset <= |input| && Client.String(input, offset) == Some(Parsed(name, colon)) && At(input, colon, ':')
    requires IsValue(Client.Value(input, colon + 1), value, end)
    ensures IsMember(Client.Member(input, offset), name, value, end)
  {
    assert Client.SkipSpace(input, colon) == colon;
  }

  lemma MembersStep(input: string, offset: nat, sofar: map<string, Client.JsonValue>, name: string,
                    value: Client.JsonValue, next: nat)
    requires offset <= |input| && IsMember(Client.Member(input, offset), name, value, next) && name !in sofar
    ensures var fields := sofar[name := value];
      && (At(input, next, '}') ==> IsObject(Client.Members(input, offset, sofar), fields, next + 1))
      && (At(input, next, ',') && At(input, next + 1, '"') ==>
            Client.Members(input, offset, sofar) == Client.Members(input, next + 1, fields))
  {
    var fields := sofar[name := value];
    assert Client.Members(input, offset, sofar) == Client.MembersAfter(input, next, fields);
  }

  lemma ItemsStep(input: string, offset: nat, sofar: seq<Client.JsonValue>, value: Client.JsonValue, next: nat)
    requires offset <= |input| && IsValue(Client.Value(input, offset), value, next)
    ensures var grown := sofar + [value];
      && (At(input, next, ']') ==> IsArray(Client.Items(input, offset, sofar), grown, next + 1))
      && (At(input, next, ',') ==> Client.Items(input, offset, sofar) == Client.Items(input, next + 1, grown))
  {
    assert Client.Items(input, offset, sofar) == Client.ItemsAfter(input, next, sofar + [value]);
  }

  lemma {:induction false} MembersAreRead(members: seq<Named>, input: string, offset: nat, sofar: map<string, Client.JsonValue>)
    requires members != [] && MembersSendable(members) && Absent(members, sofar)
    requires offset <= |input| && Stands(input, offset, PrintMembers(members) + "}")
    ensures IsObject(Client.Members(input, offset, sofar), sofar + MeaningOfMembers(members),
                     offset + |PrintMembers(members)| + 1)
    decreases members, 0
  {
    var m := members[0];
    var fields := sofar[m.name := Meaning(m.value)];
    var next := offset + |PrintMember(m)|;
    MemberParts(members, input, offset);
    MemberIsRead(m, input, offset);
    MembersStep(input, offset, sofar, m.name, Meaning(m.value), next);
    FieldsGrow(members, sofar);
    if |members| > 1 {
      MemberParts(members[1..], input, next + 1);
      MembersAreRead(members[1..], input, next + 1, fields);
    }
  }

  /** None of the members is named by a field read before. */
  predicate Absent(members: seq<Named>, sofar: map<string, Client.JsonValue>) {
    members == [] || (members[0].name !in sofar && Absent(members[1..], sofar))
  }

  lemma {:induction false} AbsentGrows(members: seq<Named>, sofar: map<string, Client.JsonValue>, name: string, value: Client.JsonValue)
    requires Absent(members, sofar) && !Names(members, name)
    ensures Absent(members, sofar[name := value])
  {
    if members != [] { AbsentGrows(members[1..], sofar, name, value); }
  }

  lemma {:induction false} AbsentFromNone(members: seq<Named>)
    ensures Absent(members, map[])
  {
    if members != [] { AbsentFromNone(members[1..]); }
  }

  lemma {:induction false} NamesOnly(members: seq<Named>, name: string)
    ensures name in MeaningOfMembers(members) <==> Names(members, name)
  {
    if members != [] { NamesOnly(members[1..], name); }
  }

  lemma FieldsGrow(members: seq<Named>, sofar: map<string, Client.JsonValue>)
    requires members != [] && MembersSendable(members) && Absent(members, sofar)
    ensures var fields := sofar[members[0].name := Meaning(members[0].value)];
      && Absent(members[1..], fields) && fields + MeaningOfMembers(members[1..]) == sofar + MeaningOfMembers(members)
      && (|members| == 1 ==> fields == sofar + MeaningOfMembers(members))
  {
    var name, value := members[0].name, Meaning(members[0].value);
    AbsentGrows(members[1..], sofar, name, value);
    NamesOnly(members[1..], name);
    Overlay(sofar, name, value, MeaningOfMembers(members[1..]));
    if |members| == 1 {
      assert MeaningOfMembers(members[1..]) == map[];
      assert sofar[name := value] + map[] == sofar[name := value];
    }
  }

  lemma Overlay<V>(sofar: map<string, V>, name: string, value: V, rest: map<string, V>)
    requires name !in rest
    ensures sofar[name := value] + rest == sofar + (map[name := value] + rest)
  {}

  /** Reading these items behind the ones read before gives all of them. */
  predicate Collects(sofar: seq<Client.JsonValue>, items: seq<Tree>, all: seq<Client.JsonValue>)
    decreases items
  {
    if items == [] then all == sofar else Collects(sofar + [Meaning(items[0])], items[1..], all)
  }

  lemma {:induction false} CollectsMeaning(sofar: seq<Client.JsonValue>, items: seq<Tree>, all: seq<Client.JsonValue>)
    requires all == sofar + MeaningOfItems(items)
    ensures Collects(sofar, items, all)
    decreases items
  {
    if items == [] {
      assert all == sofar;
    } else {
      assert sofar + [Meaning(items[0])] + MeaningOfItems(items[1..]) == sofar + MeaningOfItems(items);
      CollectsMeaning(sofar + [Meaning(items[0])], items[1..], all);
    }
  }

  lemma CollectsFromNone(items: seq<Tree>)
    ensures Collects([], items, MeaningOfItems(items))
  {
    assert MeaningOfItems(items) == [] + MeaningOfItems(items);
    CollectsMeaning([], items, MeaningOfItems(items));
  }

  lemma {:induction false} ItemsAreRead(items: seq<Tree>, input: string, offset: nat, sofar: seq<Client.JsonValue>,
                                        all: seq<Client.JsonValue>)
    requires items != [] && ItemsSendable(items) && Collects(sofar, items, all)
    requires offset <= |input| && Stands(input, offset, PrintItems(items) + "]")
    ensures IsArray(Client.Items(input, offset, sofar), all, offset + |PrintItems(items)| + 1)
    decreases items, 0
  {
    var value := Meaning(items[0]);
    var next := offset + |Print(items[0])|;
    ItemParts(items, input, offset);
    ValueIsRead(items[0], input, offset);
    ItemsStep(input, offset, sofar, value, next);
    if |items| == 1 {
      assert items[1..] == [];
    } else {
      ItemsAreRead(items[1..], input, next + 1, sofar + [value], all);
    }
  }

  /** A body the server prints is read by the client as what it means. */
  lemma BodyIsRead(t: Tree)
    requires Sendable(t)
    ensures Client.Document(Print(t)) == Some(Meaning(t))
  {
    assert Print(t)[0..|Print(t)|] == Print(t);
    StandsIsSlice(Print(t), 0, Print(t));
    ValueIsRead(t, Print(t), 0);
  }
}
