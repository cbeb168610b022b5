/** The flat request bodies the client sends, as the server reads them. */
module FlatRoundTrip {
  import opened Basics
  import opened JsonText
  import Decimal
  import Client = ClientJson
  import Server = ServerJson

  // ---------------------------------------------------------------- strings, client to server

  lemma EscapedCharIsRead(input: string, offset: nat, c: char, sofar: string)
    requires Client.EscapeChar(c).Some? && offset <= |input| && Stands(input, offset, Client.EscapeChar(c).value)
    ensures var next := offset + |Client.EscapeChar(c).value|;
      next <= |input| && Server.StringBody(input, offset, sofar) == Server.StringBody(input, next, sofar + [c])
  {
    var escape := Client.EscapeChar(c).value;
    StandsIsSlice(input, offset, escape);
    assert input[offset] == input[offset..offset + |escape|][0];
    if |escape| == 2 { assert input[offset + 1] == input[offset..offset + 2][1]; }
  }

  lemma EscapedParts(input: string, offset: nat, text: string)
    requires text != [] && Client.Escapable(text) && offset <= |input|
    requires Stands(input, offset, Client.EscapeAll(text) + "\"")
    ensures var first := Client.EscapeChar(text[0]).value;
      && Stands(input, offset, first) && offset + |first| <= |input|
      && Stands(input, offset + |first|, Client.EscapeAll(text[1..]) + "\"")
      && |Client.EscapeAll(text)| == |first| + |Client.EscapeAll(text[1..])|
  {
    var first, rest := Client.EscapeChar(text[0]).value, Client.EscapeAll(text[1..]) + "\"";
    assert Client.EscapeAll(text) + "\"" == first + rest;
    Parts(input, offset, first, rest);
  }

  lemma {:induction false} EscapedTextIsRead(input: string, offset: nat, text: string, sofar: string)
    requires Client.Escapable(text) && offset <= |input| && Stands(input, offset, Client.EscapeAll(text) + "\"")
    ensures Server.StringBody(input, offset, sofar) == Some(Parsed(sofar + text, offset + |Client.EscapeAll(text)| + 1))
    decreases |text|
  {
    if text == [] {
      assert Client.EscapeAll(text) + "\"" == "\"";
      assert sofar + text == sofar;
    } else {
      EscapedParts(input, offset, text);
      EscapedCharIsRead(input, offset, text[0], sofar);
      TakeFirst(sofar, text);
      EscapedTextIsRead(input, offset + |Client.EscapeChar(text[0]).value|, text[1..], sofar + [text[0]]);
    }
  }

  lemma QuotedParts(input: string, offset: nat, text: string)
    requires Client.Escapable(text) && offset <= |input| && Stands(input, offset, Client.Quoted(text))
    ensures At(input, offset, '"') && Stands(input, offset + 1, Client.EscapeAll(text) + "\"")
    ensures |Client.Quoted(text)| == |Client.EscapeAll(text)| + 2
  {
    assert Client.Quoted(text) == "\"" + (Client.EscapeAll(text) + "\"");
    Parts(input, offset, "\"", Client.EscapeAll(text) + "\"");
  }

  /** Every text the client can quote is read back by the server. */
  lemma QuotedIsRead(input: string, offset: nat, text: string)
    requires Client.Escapable(text) && offset <= |input| && Stands(input, offset, Client.Quoted(text))
    ensures Server.String(input, offset) == Some(Parsed(text, offset + |Client.Quoted(text)|))
  {
    QuotedParts(input, offset, text);
    EscapedTextIsRead(input, offset + 1, text, "");
    assert "" + text == text;
  }

  // ---------------------------------------------------------------- flat objects

  predicate SendableScalar(v: Server.Scalar) {
    match v
    case Text(text) => Client.Escapable(text)
    case Unsigned(n) => n < UINT64_SIZE
    case Boolean(_) => true
  }

  function PrintScalar(v: Server.Scalar): string
    requires SendableScalar(v)
  {
    match v
    case Text(text) => Client.Quoted(text)
    case Unsigned(n) => Decimal.Print(n)
    case Boolean(b) => if b then "true" else "false"
  }

  predicate SendableField(f: Server.Field) { Client.Escapable(f.name) && SendableScalar(f.value) }

  predicate Sendable(fields: seq<Server.Field>) {
    fields == [] || (SendableField(fields[0]) && Sendable(fields[1..]))
  }

  function PrintField(f: Server.Field): string
    requires SendableField(f)
  {
    Client.Quoted(f.name) + ":" + PrintScalar(f.value)
  }

  function PrintFields(fields: seq<Server.Field>): string
    requires Sendable(fields)
  {
    if fields == [] then ""
    else PrintField(fields[0]) + if |fields| == 1 then "" else "," + PrintFields(fields[1..])
  }

  predicate IsScalar(r: Option<Parsed<Server.Scalar>>, value: Server.Scalar, end: nat) {
    r.Some? && r.value.offset == end && r.value.value == value
  }

  lemma NumberIsRead(input: string, offset: nat, n: nat)
    requires offset <= |input| && Stands(input, offset, Decimal.Print(n)) && n < UINT64_SIZE
    requires Decimal.Delimited(input, offset + |Decimal.Print(n)|)
    ensures IsScalar(Server.ScalarAt(input, offset), Server.Unsigned(n), offset + |Decimal.Print(n)|)
  {
    var end := offset + |Decimal.Print(n)|;
    StandsIsSlice(input, offset, Decimal.Print(n));
    Decimal.DigitsOfNumber(input, offset, end, n);
    NoWordAtDigit(input, offset);
    Decimal.PrintReads(n);
  }

  lemma WordIsRead(input: string, offset: nat, b: bool)
    requires offset <= |input| && Stands(input, offset, PrintScalar(Server.Boolean(b)))
    ensures IsScalar(Server.ScalarAt(input, offset), Server.Boolean(b), offset + |PrintScalar(Server.Boolean(b))|)
  {
    var word := PrintScalar(Server.Boolean(b));
    StandsIsSlice(input, offset, word);
    assert input[offset..][..|word|] == word;
    assert input[offset..][0] == input[offset];
  }

  lemma ScalarIsRead(v: Server.Scalar, input: string, offset: nat)
    requires SendableScalar(v) && offset <= |input| && Stands(input, offset, PrintScalar(v))
    requires Decimal.Delimited(input, offset + |PrintScalar(v)|)
    ensures IsScalar(Server.ScalarAt(input, offset), v, offset + |PrintScalar(v)|)
    ensures offset < |input| && Server.SkipSpace(input, offset) == offset
  {
    match v
    case Text(text) =>
      QuotedParts(input, offset, text);
      QuotedIsRead(input, offset, text);
    case Unsigned(n) =>
      NumberIsRead(input, offset, n);
      StandsIsSlice(input, offset, Decimal.Print(n));
      Decimal.DigitsOfNumber(input, offset, offset + |Decimal.Print(n)|, n);
    case Boolean(b) => WordIsRead(input, offset, b);
  }

  predicate IsField(r: Option<Parsed<Server.Field>>, f: Server.Field, end: nat) {
    r.Some? && r.value.offset == end && r.value.value == f
  }

  lemma FieldParts(f: Server.Field, input: string, offset: nat)
    requires SendableField(f) && offset <= |input| && Stands(input, offset, PrintField(f))
    ensures var name := Client.Quoted(f.name);
      && Stands(input, offset, name) && At(input, offset, '"') && At(input, offset + |name|, ':')
      && Stands(input, offset + |name| + 1, PrintScalar(f.value))
      && |PrintField(f)| == |name| + 1 + |PrintScalar(f.value)|
  {
    var name := Client.Quoted(f.name);
    assert PrintField(f) == name + (":" + PrintScalar(f.value));
    Parts(input, offset, name, ":" + PrintScalar(f.value));
    Parts(input, offset + |name|, ":", PrintScalar(f.value));
    QuotedParts(input, offset, f.name);
  }

  lemma FieldIsRead(f: Server.Field, input: string, offset: nat)
    requires SendableField(f) && offset <= |input| && Stands(input, offset, PrintField(f))
    requires Decimal.Delimited(input, offset + |PrintField(f)|)
    ensures IsField(Server.Member(input, offset), f, offset + |PrintField(f)|)
  {
    FieldParts(f, input, offset);
    QuotedIsRead(input, offset, f.name);
    ScalarIsRead(f.value, input, offset + |Client.Quoted(f.name)| + 1);
    MemberStep(input, offset, f.name, offset + |Client.Quoted(f.name)|, f.value, offset + |PrintField(f)|);
  }

  lemma MemberStep(input: string, offset: nat, name: string, colon: nat, value: Server.Scalar, end: nat)
    requires offset <= |input| && Server.String(input, offset) == Some(Parsed(name, colon)) && At(input, colon, ':')
    requires Server.SkipSpace(input, colon + 1) == colon + 1 && IsScalar(Server.ScalarAt(input, colon + 1), value, end)
    ensures IsField(Server.Member(input, offset), Server.Field(name, value), end)
  {
    assert Server.SkipSpace(input, colon) == colon;
  }

  lemma FieldsParts(fields: seq<Server.Field>, input: string, offset: nat)
    requires fields != [] && Sendable(fields) && offset <= |input| && Stands(input, offset, PrintFields(fields) + "}")
    ensures var first := PrintField(fields[0]); var next := offset + |first|;
      && Stands(input, offset, first) && At(input, offset, '"')
      && (|fields| == 1 ==> At(input, next, '}') && |PrintFields(fields)| == |first|)
      && (|fields| > 1 ==> At(input, next, ',') && Stands(input, next + 1, PrintFields(fields[1..]) + "}"))
      && (|fields| > 1 ==> |PrintFields(fields)| == |first| + 1 + |PrintFields(fields[1..])|)
  {
    var first := PrintField(fields[0]);
    if |fields| == 1 {
      assert PrintFields(fields) + "}" == first + "}";
      Parts(input, offset, first, "}");
    } else {
      var rest := PrintFields(fields[1..]) + "}";
      assert PrintFields(fields) + "}" == first + ("," + rest);
      Parts(input, offset, first, "," + rest);
      Parts(input, offset + |first|, ",", rest);
    }
    FieldParts(fields[0], input, offset);
  }

  /** Storing these fields behind the ones read before, none of them twice, gives all of them. */
  predicate Collects(sofar: map<string, Server.Scalar>, fields: seq<Server.Field>, all: map<string, Server.Scalar>)
    decreases fields
  {
    if fields == [] then all == sofar
    else fields[0].name !in sofar && Collects(sofar[fields[0].name := fields[0].value], fields[1..], all)
  }

  lemma MembersStep(input: string, offset: nat, sofar: map<string, Server.Scalar>, f: Server.Field, next: nat)
    requires offset <= |input| && IsField(Server.Member(input, offset), f, next) && f.name !in sofar
    ensures var more := sofar[f.name := f.value];
      && (At(input, next, '}') && next + 1 == |input| ==> Server.Members(input, offset, sofar) == Some(more))
      && (At(input, next, ',') && At(input, next + 1, '"') ==>
            Server.Members(input, offset, sofar) == Server.Members(input, next + 1, more))
  {
    assert Server.Members(input, offset, sofar) == Server.MembersAfter(input, next, sofar[f.name := f.value]);
  }

  lemma FirstFieldIsRead(fields: seq<Server.Field>, input: string, offset: nat, sofar: map<string, Server.Scalar>)
    requires fields != [] && Sendable(fields) && fields[0].name !in sofar
    requires offset <= |input| && Stands(input, offset, PrintFields(fields) + "}")
    requires offset + |PrintFields(fields)| + 1 == |input|
    ensures |fields| == 1 ==> Server.Members(input, offset, sofar) == Some(sofar[fields[0].name := fields[0].value])
    ensures var next := offset + |PrintField(fields[0])| + 1;
      |fields| > 1 ==>
        && next <= |input| && Server.Members(input, offset, sofar) == Server.Members(input, next, sofar[fields[0].name := fields[0].value])
        && Stands(input, next, PrintFields(fields[1..]) + "}") && next + |PrintFields(fields[1..])| + 1 == |input|
  {
    var f := fields[0];
    var next := offset + |PrintField(f)|;
    FieldsParts(fields, input, offset);
    FieldIsRead(f, input, offset);
    MembersStep(input, offset, sofar, f, next);
    if |fields| > 1 { FieldsParts(fields[1..], input, next + 1); }
  }

  lemma {:induction false} FieldsAreRead(fields: seq<Server.Field>, input: string, offset: nat,
                                         sofar: map<string, Server.Scalar>, all: map<string, Server.Scalar>)
    requires fields != [] && Sendable(fields) && Collects(sofar, fields, all)
    requires offset <= |input| && Stands(input, offset, PrintFields(fields) + "}")
    requires offset + |PrintFields(fields)| + 1 == |input|
    ensures Server.Members(input, offset, sofar) == Some(all)
    decreases fields
  {
    var f := fields[0];
    FirstFieldIsRead(fields, input, offset, sofar);
    if |fields| == 1 {
      assert fields[1..] == [];
    } else {
      FieldsAreRead(fields[1..], input, offset + |PrintField(f)| + 1, sofar[f.name := f.value], all);
    }
  }

  /** A flat object the client prints is read by the server as exactly its fields. */
  lemma FlatObjectIsRead(fields: seq<Server.Field>, all: map<string, Server.Scalar>)
    requires fields != [] && Sendable(fields) && Collects(map[], fields, all)
    ensures Server.FlatObject("{" + PrintFields(fields) + "}") == Some(all)
  {
    var input := "{" + PrintFields(fields) + "}";
    assert input[0..|input|] == input;
    StandsIsSlice(input, 0, input);
    assert input == "{" + (PrintFields(fields) + "}");
    Parts(input, 0, "{", PrintFields(fields) + "}");
    FieldsParts(fields, input, 1);
    FieldsAreRead(fields, input, 1, map[], all);
    assert Server.SkipSpace(input, 0) == 0 && Server.SkipSpace(input, 1) == 1;
  }

  // ---------------------------------------------------------------- the body that starts a transmission

  function ScopeName(scope: VoiceScope): string {
    match scope
    case Team => "team"
    case Specialization => "specialization"
    case Group => "group"
  }

  const CLIENT_ID: string := "client_" + "transmission_id"
  const SCOPE: string := "scope"
  const VERSION: string := "membership_" + "version"

  predicate IsPlain(c: char) { c != '"' && c != '\\' && !IsControl(c) }

  predicate Plain(text: string) { text == [] || (IsPlain(text[0]) && Plain(text[1..])) }

  lemma {:induction false} PlainIsEscapable(text: string)
    requires Plain(text)
    ensures Client.Escapable(text)
  {
    if text != [] { PlainIsEscapable(text[1..]); }
  }

  lemma {:induction false} PlainIsUnescaped(text: string)
    requires Plain(text) && Client.Escapable(text)
    ensures Client.EscapeAll(text) == text
  {
    if text != [] {
      PlainIsUnescaped(text[1..]);
      assert Client.EscapeChar(text[0]).value == [text[0]];
      assert text == [text[0]] + text[1..];
    }
  }

  lemma {:induction false} PlainByIndex(text: string)
    requires forall i :: 0 <= i < |text| ==> IsPlain(text[i])
    ensures Plain(text)
  {
    if text != [] { PlainByIndex(text[1..]); }
  }

  lemma {:induction false} PlainConcat(a: string, b: string)
    requires Plain(a) && Plain(b)
    ensures Plain(a + b)
  {
    if a == [] {
      assert a + b == b;
    } else {
      PlainConcat(a[1..], b);
      assert (a + b)[1..] == a[1..] + b;
    }
  }

  lemma ScopeNameIsPlain(scope: VoiceScope)
    ensures Plain(ScopeName(scope)) && Client.Escapable(ScopeName(scope))
  {
    PlainByIndex(ScopeName(scope));
    PlainIsEscapable(ScopeName(scope));
  }

  function Key(name: string): string { "\"" + name + "\":" }

  method StartBody(id: string, scope: VoiceScope, version: nat) returns (body: Option<string>)
    ensures body.Some? <==> Client.Escapable(id)
    ensures body.Some? && version < UINT64_SIZE ==>
      Server.FlatObject(body.value) == Some(
        map[CLIENT_ID := Server.Text(id), SCOPE := Server.Text(ScopeName(scope)), VERSION := Server.Unsigned(version)])
  {
    var escapedId := Client.EscapeJson(id);
    if escapedId.None? { return None; }
    ScopeNameIsPlain(scope);
    var escapedScope := Client.EscapeJson(ScopeName(scope));
    body := Some("{" + Key(CLIENT_ID) + escapedId.value + ("," + Key(SCOPE)) + escapedScope.value
                 + ("," + Key(VERSION)) + Decimal.Print(version) + "}");
    if version < UINT64_SIZE {
      StartBodyIsPrinted(id, scope, version);
      StartFieldsCollect(id, scope, version);
      FlatObjectIsRead(StartFields(id, scope, version),
        map[CLIENT_ID := Server.Text(id), SCOPE := Server.Text(ScopeName(scope)), VERSION := Server.Unsigned(version)]);
    }
  }

  function StartFields(id: string, scope: VoiceScope, version: nat): seq<Server.Field> {
    [Server.Field(CLIENT_ID, Server.Text(id)), Server.Field(SCOPE, Server.Text(ScopeName(scope))),
     Server.Field(VERSION, Server.Unsigned(version))]
  }

  lemma StartFieldsCollect(id: string, scope: VoiceScope, version: nat)
    ensures Collects(map[], StartFields(id, scope, version),
      map[CLIENT_ID := Server.Text(id), SCOPE := Server.Text(ScopeName(scope)), VERSION := Server.Unsigned(version)])
  {
    var fields := StartFields(id, scope, version);
    var one := map[CLIENT_ID := Server.Text(id)];
    var two := one[SCOPE := Server.Text(ScopeName(scope))];
    var all := two[VERSION := Server.Unsigned(version)];
    assert |CLIENT_ID| == 22 && |SCOPE| == 5 && |VERSION| == 18;
    assert Collects(all, fields[1..][1..][1..], all);
    assert Collects(two, fields[1..][1..], all);
    assert Collects(one, fields[1..], all);
    assert map[][CLIENT_ID := Server.Text(id)] == one;
    assert all == map[CLIENT_ID := Server.Text(id), SCOPE := Server.Text(ScopeName(scope)), VERSION := Server.Unsigned(version)];
  }

  lemma NameIsPrinted(name: string, value: Server.Scalar)
    requires Plain(name) && SendableScalar(value)
    ensures Client.Escapable(name) && PrintField(Server.Field(name, value)) == Key(name) + PrintScalar(value)
  {
    PlainIsEscapable(name);
    PlainIsUnescaped(name);
    assert "\"" + name + "\"" + ":" == Key(name);
  }

  lemma ThreeFields(a: Server.Field, b: Server.Field, c: Server.Field)
    requires SendableField(a) && SendableField(b) && SendableField(c)
    ensures Sendable([a, b, c])
    ensures PrintFields([a, b, c]) == PrintField(a) + ("," + (PrintField(b) + ("," + PrintField(c))))
  {
    assert [a, b, c][1..] == [b, c] && [b, c][1..] == [c] && [c][1..] == [];
    assert Sendable([c]) && Sendable([b, c]);
    assert PrintFields([c]) == PrintField(c) + "" == PrintField(c);
    assert PrintFields([b, c]) == PrintField(b) + ("," + PrintFields([c]));
  }

  lemma Flatten(k: string, v: string, l: string, w: string, m: string, x: string)
    ensures "{" + (k + v + ("," + (l + w + ("," + (m + x))))) + "}" == ("{" + k) + v + ("," + l) + w + ("," + m) + x + "}"
  {
    var tail := "," + (m + x);
    assert tail == ("," + m) + x;
    var middle := "," + (l + w + tail);
    assert middle == ("," + l) + w + tail;
    assert "{" + (k + v + middle) == ("{" + k) + v + middle;
    assert ("{" + k) + v + middle == ("{" + k) + v + ("," + l) + w + tail;
    assert ("{" + k) + v + ("," + l) + w + tail == ("{" + k) + v + ("," + l) + w + ("," + m) + x;
  }

  lemma IdIsPlain()
    ensures Plain(CLIENT_ID)
  {
    PlainByIndex("client_");
    PlainByIndex("transmission_id");
    PlainConcat("client_", "transmission_id");
  }

  lemma ScopeIsPlain()
    ensures Plain(SCOPE)
  {
    PlainByIndex(SCOPE);
  }

  lemma VersionIsPlain()
    ensures Plain(VERSION)
  {
    PlainByIndex("membership_");
    PlainByIndex("version");
    PlainConcat("membership_", "version");
  }

  lemma ThreeFieldsFlatten(a: Server.Field, b: Server.Field, c: Server.Field)
    requires SendableField(a) && SendableField(b) && SendableField(c)
    requires Plain(a.name) && Plain(b.name) && Plain(c.name)
    ensures Sendable([a, b, c])
    ensures "{" + PrintFields([a, b, c]) + "}" ==
      ("{" + Key(a.name)) + PrintScalar(a.value) + ("," + Key(b.name)) + PrintScalar(b.value)
      + ("," + Key(c.name)) + PrintScalar(c.value) + "}"
  {
    NameIsPrinted(a.name, a.value);
    NameIsPrinted(b.name, b.value);
    NameIsPrinted(c.name, c.value);
    ThreeFields(a, b, c);
    Flatten(Key(a.name), PrintScalar(a.value), Key(b.name), PrintScalar(b.value),
            Key(c.name), PrintScalar(c.value));
  }

  lemma StartFieldsAreSendable(id: string, scope: VoiceScope, version: nat)
    requires Client.Escapable(id) && version < UINT64_SIZE
    ensures var f := StartFields(id, scope, version);
      && Plain(f[0].name) && Plain(f[1].name) && Plain(f[2].name)
      && SendableField(f[0]) && SendableField(f[1]) && SendableField(f[2])
  {
    IdIsPlain();
    ScopeIsPlain();
    VersionIsPlain();
    ScopeNameIsPlain(scope);
    PlainIsEscapable(CLIENT_ID);
    PlainIsEscapable(SCOPE);
    PlainIsEscapable(VERSION);
  }

  lemma StartBodyIsPrinted(id: string, scope: VoiceScope, version: nat)
    requires Client.Escapable(id) && Client.Escapable(ScopeName(scope)) && version < UINT64_SIZE
    ensures var fields := StartFields(id, scope, version);
      Sendable(fields) && "{" + PrintFields(fields) + "}" ==
        "{" + Key(CLIENT_ID) + Client.Quoted(id) + ("," + Key(SCOPE)) + Client.Quoted(ScopeName(scope))
        + ("," + Key(VERSION)) + Decimal.Print(version) + "}"
  {
    var f := StartFields(id, scope, version);
    StartFieldsAreSendable(id, scope, version);
    ThreeFieldsFlatten(f[0], f[1], f[2]);
  }
}
