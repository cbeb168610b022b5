/** The visible directory of a group: content fingerprints, versions that follow them, and answers that rely on both. */
module Directory {
  import opened Basics
  import Decimal
  import Text
  import Json = JsonRoundTrip
  import Client = ClientJson

  type Id = string

  datatype NodeKind = GroupKind | SpecializationKind | TeamKind

  datatype Node = Node(id: Id, kind: NodeKind, parent: Option<Id>, name: string, index: nat)
  datatype PublicRole = PublicRole(id: Id, name: string)
  datatype Participant = Participant(player: Id, name: string, team: Id, roles: seq<Id>)
  datatype Content = Content(nodes: seq<Node>, roles: seq<PublicRole>, participants: seq<Participant>)

  function KindName(kind: NodeKind): string {
    match kind
    case GroupKind => "group"
    case SpecializationKind => "specialization"
    case TeamKind => "team"
  }

  // ---------------------------------------------------------------- the fingerprint

  /** One value of a fingerprint: its length, a colon, the value itself and a semicolon. */
  function Piece(value: string): string { Decimal.Print(|value|) + ":" + value + ";" }

  function Encode(values: seq<string>): string {
    if values == [] then "" else Encode(values[..|values| - 1]) + Piece(values[|values| - 1])
  }

  function NodeValues(n: Node): seq<string> {
    [n.id, KindName(n.kind), if n.parent.Some? then n.parent.value else "", n.name, Decimal.Print(n.index)]
  }

  function NodesValues(nodes: seq<Node>): seq<string> {
    if nodes == [] then [] else NodesValues(nodes[..|nodes| - 1]) + NodeValues(nodes[|nodes| - 1])
  }

  function RolesValues(roles: seq<PublicRole>): seq<string> {
    if roles == [] then [] else RolesValues(roles[..|roles| - 1]) + [roles[|roles| - 1].id, roles[|roles| - 1].name]
  }

  function ParticipantValues(p: Participant): seq<string> { [p.player, p.name, p.team] + p.roles }

  function ParticipantsValues(participants: seq<Participant>): seq<string> {
    if participants == [] then []
    else ParticipantsValues(participants[..|participants| - 1]) + ParticipantValues(participants[|participants| - 1])
  }

  function Values(c: Content): seq<string> {
    NodesValues(c.nodes) + RolesValues(c.roles) + ParticipantsValues(c.participants)
  }

  function Fingerprint(c: Content): string { Encode(Values(c)) }

  lemma EncodeMore(values: seq<string>, value: string)
    ensures Encode(values + [value]) == Encode(values) + Piece(value)
  {
    assert (values + [value])[..|values|] == values;
  }

  lemma PrefixMore(before: seq<string>, values: seq<string>, i: nat)
    requires i < |values|
    ensures Encode(before + values[..i + 1]) == Encode(before + values[..i]) + Piece(values[i])
  {
    EncodeMore(before + values[..i], values[i]);
    assert before + values[..i + 1] == before + values[..i] + [values[i]];
  }

  method AppendValues(fingerprint: string, ghost before: seq<string>, values: seq<string>) returns (longer: string)
    requires fingerprint == Encode(before)
    ensures longer == Encode(before + values)
  {
    longer := fingerprint;
    assert before + values[..0] == before;
    for i := 0 to |values|
      invariant longer == Encode(before + values[..i])
    {
      PrefixMore(before, values, i);
      longer := longer + Piece(values[i]);
    }
    assert values[..|values|] == values;
  }

  method AppendNodes(nodes: seq<Node>) returns (fingerprint: string)
    ensures fingerprint == Encode(NodesValues(nodes))
  {
    fingerprint := "";
    for i := 0 to |nodes|
      invariant fingerprint == Encode(NodesValues(nodes[..i]))
    {
      assert nodes[..i + 1][..i] == nodes[..i];
      fingerprint := AppendValues(fingerprint, NodesValues(nodes[..i]), NodeValues(nodes[i]));
    }
    assert nodes[..|nodes|] == nodes;
  }

  lemma RolesMore(before: seq<string>, roles: seq<PublicRole>, i: nat)
    requires i < |roles|
    ensures before + RolesValues(roles[..i + 1]) == before + RolesValues(roles[..i]) + [roles[i].id, roles[i].name]
  {
    assert roles[..i + 1][..i] == roles[..i];
  }

  method AppendRoles(start: string, ghost before: seq<string>, roles: seq<PublicRole>) returns (fingerprint: string)
    requires start == Encode(before)
    ensures fingerprint == Encode(before + RolesValues(roles))
  {
    fingerprint := start;
    assert before + [] == before;
    for i := 0 to |roles|
      invariant fingerprint == Encode(before + RolesValues(roles[..i]))
    {
      RolesMore(before, roles, i);
      fingerprint := AppendValues(fingerprint, before + RolesValues(roles[..i]), [roles[i].id, roles[i].name]);
    }
    assert roles[..|roles|] == roles;
  }

  lemma ParticipantsMore(before: seq<string>, participants: seq<Participant>, i: nat)
    requires i < |participants|
    ensures before + ParticipantsValues(participants[..i + 1])
      == before + ParticipantsValues(participants[..i]) + ParticipantValues(participants[i])
  {
    assert participants[..i + 1][..i] == participants[..i];
  }

  method AppendParticipants(start: string, ghost before: seq<string>, participants: seq<Participant>) returns (fingerprint: string)
    requires start == Encode(before)
    ensures fingerprint == Encode(before + ParticipantsValues(participants))
  {
    fingerprint := start;
    assert before + [] == before;
    for i := 0 to |participants|
      invariant fingerprint == Encode(before + ParticipantsValues(participants[..i]))
    {
      ParticipantsMore(before, participants, i);
      fingerprint := AppendValues(fingerprint, before + ParticipantsValues(participants[..i]), ParticipantValues(participants[i]));
    }
    assert participants[..|participants|] == participants;
  }

  method MakeFingerprint(c: Content) returns (fingerprint: string)
    ensures fingerprint == Fingerprint(c)
  {
    fingerprint := AppendNodes(c.nodes);
    fingerprint := AppendRoles(fingerprint, NodesValues(c.nodes), c.roles);
    fingerprint := AppendParticipants(fingerprint, NodesValues(c.nodes) + RolesValues(c.roles), c.participants);
  }

  // ---------------------------------------------------------------- the encoding is injective on lists of values

  lemma {:induction false} EncodeFront(value: string, rest: seq<string>)
    ensures Encode([value] + rest) == Piece(value) + Encode(rest)
    decreases |rest|
  {
    if rest == [] {
      assert [value] + rest == [value] && [value][..0] == [];
      assert "" + Piece(value) == Piece(value) && Piece(value) + "" == Piece(value);
    } else {
      var front, last := rest[..|rest| - 1], rest[|rest| - 1];
      EncodeFront(value, front);
      assert ([value] + rest)[..|rest|] == [value] + front;
      assert Piece(value) + Encode(front) + Piece(last) == Piece(value) + (Encode(front) + Piece(last));
    }
  }

  lemma PieceSplits(a: string, x: string)
    ensures Piece(a) + x == Decimal.Print(|a|) + (":" + (a + (";" + x)))
  {
    var digits := Decimal.Print(|a|);
    Regroup(digits + ":" + a, ";", x);
    Regroup(digits + ":", a, ";" + x);
    Regroup(digits, ":", a + (";" + x));
  }

  lemma Skip(front: string, rest: string)
    ensures (front + rest)[..|front|] == front && (front + rest)[|front|..] == rest
  {}

  lemma PieceParts(a: string, x: string, text: string)
    requires text == Piece(a) + x
    ensures var n := Decimal.DigitsEnd(text, 0);
      text[..n] == Decimal.Print(|a|) && text[n..] == ":" + (a + (";" + x))
  {
    PieceSplits(a, x);
    Skip(Decimal.Print(|a|), ":" + (a + (";" + x)));
    LengthIsDelimited(Decimal.Print(|a|), |a|, ":" + (a + (";" + x)));
  }

  /** A value and what follows it can be told apart. */
  lemma PieceIsDelimited(a: string, x: string, b: string, y: string)
    requires Piece(a) + x == Piece(b) + y
    ensures a == b && x == y
  {
    PieceParts(a, x, Piece(a) + x);
    PieceParts(b, y, Piece(a) + x);
    Decimal.PrintIsInjective(|a|, |b|);
    SameStarts(":", a + (";" + x), ":", b + (";" + y));
    SameStarts(a, ";" + x, b, ";" + y);
    SameStarts(";", x, ";", y);
  }

  lemma LengthIsDelimited(digits: string, length: nat, rest: string)
    requires digits == Decimal.Print(length) && rest != "" && rest[0] == ':'
    ensures Decimal.DigitsEnd(digits + rest, 0) == |digits|
  {
    Decimal.PrintReads(length);
    assert (digits + rest)[0..|digits|] == digits;
    Decimal.DigitsEndAfter(digits + rest, 0, |digits|);
  }

  lemma {:induction false} EncodeIsInjective(a: seq<string>, b: seq<string>)
    requires Encode(a) == Encode(b)
    ensures a == b
    decreases |a|
  {
    if a != [] { EncodeFront(a[0], a[1..]); assert a == [a[0]] + a[1..]; }
    if b != [] { EncodeFront(b[0], b[1..]); assert b == [b[0]] + b[1..]; }
    if a != [] && b != [] {
      PieceIsDelimited(a[0], Encode(a[1..]), b[0], Encode(b[1..]));
      EncodeIsInjective(a[1..], b[1..]);
    }
  }

  // ---------------------------------------------------------------- what a fingerprint determines

  /** The lengths of all lists. */
  predicate SameShape(c: Content, d: Content) {
    && |c.nodes| == |d.nodes| && |c.roles| == |d.roles| && |c.participants| == |d.participants|
    && forall i :: 0 <= i < |c.participants| ==> |c.participants[i].roles| == |d.participants[i].roles|
  }

  /** Identifiers are never empty, so a parent that is there is not the empty text. */
  predicate NamedParents(nodes: seq<Node>) { forall n <- nodes :: n.parent != Some("") }

  lemma SameEnds<T>(a: seq<T>, x: seq<T>, b: seq<T>, y: seq<T>)
    requires a + x == b + y && |x| == |y|
    ensures a == b && x == y
  {
    assert a == (a + x)[..|a|] && b == (b + y)[..|b|];
    assert x == (a + x)[|a|..] && y == (b + y)[|b|..];
  }

  lemma {:induction false} NodesLength(nodes: seq<Node>)
    ensures |NodesValues(nodes)| == 5 * |nodes|
  {
    if nodes != [] { NodesLength(nodes[..|nodes| - 1]); }
  }

  lemma {:induction false} RolesLength(roles: seq<PublicRole>)
    ensures |RolesValues(roles)| == 2 * |roles|
  {
    if roles != [] { RolesLength(roles[..|roles| - 1]); }
  }

  lemma NodeIsDetermined(n: Node, m: Node)
    requires NodeValues(n) == NodeValues(m) && n.parent != Some("") && m.parent != Some("")
    ensures n == m
  {
    var a, b := NodeValues(n), NodeValues(m);
    assert a[0] == b[0] && a[1] == b[1] && a[2] == b[2] && a[3] == b[3] && a[4] == b[4];
    assert |KindName(GroupKind)| == 5 && |KindName(SpecializationKind)| == 14 && |KindName(TeamKind)| == 4;
    Decimal.PrintIsInjective(n.index, m.index);
  }

  lemma {:induction false} NodesAreDetermined(a: seq<Node>, b: seq<Node>)
    requires |a| == |b| && NodesValues(a) == NodesValues(b) && NamedParents(a) && NamedParents(b)
    ensures a == b
  {
    if a != [] {
      var n := |a| - 1;
      SameEnds(NodesValues(a[..n]), NodeValues(a[n]), NodesValues(b[..n]), NodeValues(b[n]));
      NodesAreDetermined(a[..n], b[..n]);
      NodeIsDetermined(a[n], b[n]);
      assert a == a[..n] + [a[n]] && b == b[..n] + [b[n]];
    }
  }

  lemma {:induction false} RolesAreDetermined(a: seq<PublicRole>, b: seq<PublicRole>)
    requires |a| == |b| && RolesValues(a) == RolesValues(b)
    ensures a == b
  {
    if a != [] {
      var n := |a| - 1;
      SameEnds(RolesValues(a[..n]), [a[n].id, a[n].name], RolesValues(b[..n]), [b[n].id, b[n].name]);
      assert [a[n].id, a[n].name][0] == [b[n].id, b[n].name][0] && [a[n].id, a[n].name][1] == [b[n].id, b[n].name][1];
      RolesAreDetermined(a[..n], b[..n]);
      assert a == a[..n] + [a[n]] && b == b[..n] + [b[n]];
    }
  }

  lemma ParticipantIsDetermined(p: Participant, q: Participant)
    requires ParticipantValues(p) == ParticipantValues(q)
    ensures p == q
  {
    var a, b := ParticipantValues(p), ParticipantValues(q);
    assert a[0] == b[0] && a[1] == b[1] && a[2] == b[2] && a[3..] == p.roles && b[3..] == q.roles;
  }

  lemma {:induction false} ParticipantsAreDetermined(a: seq<Participant>, b: seq<Participant>)
    requires |a| == |b| && ParticipantsValues(a) == ParticipantsValues(b)
    requires forall i :: 0 <= i < |a| ==> |a[i].roles| == |b[i].roles|
    ensures a == b
  {
    if a != [] {
      var n := |a| - 1;
      SameEnds(ParticipantsValues(a[..n]), ParticipantValues(a[n]), ParticipantsValues(b[..n]), ParticipantValues(b[n]));
      ParticipantsAreDetermined(a[..n], b[..n]);
      ParticipantIsDetermined(a[n], b[n]);
      assert a == a[..n] + [a[n]] && b == b[..n] + [b[n]];
    }
  }

  lemma ValuesDetermine(c: Content, d: Content)
    requires Values(c) == Values(d) && SameShape(c, d)
    ensures NodesValues(c.nodes) == NodesValues(d.nodes) && RolesValues(c.roles) == RolesValues(d.roles)
    ensures ParticipantsValues(c.participants) == ParticipantsValues(d.participants)
  {
    NodesLength(c.nodes);
    NodesLength(d.nodes);
    RolesLength(c.roles);
    RolesLength(d.roles);
    SameStarts(NodesValues(c.nodes) + RolesValues(c.roles), ParticipantsValues(c.participants),
               NodesValues(d.nodes) + RolesValues(d.roles), ParticipantsValues(d.participants));
    SameStarts(NodesValues(c.nodes), RolesValues(c.roles), NodesValues(d.nodes), RolesValues(d.roles));
  }

  /** Contents with the same fingerprint are the same exactly if their lists have the same lengths. */
  lemma FingerprintDetermines(c: Content, d: Content)
    requires Fingerprint(c) == Fingerprint(d) && NamedParents(c.nodes) && NamedParents(d.nodes)
    ensures c == d <==> SameShape(c, d)
  {
    if SameShape(c, d) {
      EncodeIsInjective(Values(c), Values(d));
      ValuesDetermine(c, d);
      NodesAreDetermined(c.nodes, d.nodes);
      RolesAreDetermined(c.roles, d.roles);
      ParticipantsAreDetermined(c.participants, d.participants);
    }
  }

  lemma SameStarts<T>(a: seq<T>, x: seq<T>, b: seq<T>, y: seq<T>)
    requires a + x == b + y && |a| == |b|
    ensures a == b && x == y
  {
    assert a == (a + x)[..|a|] && b == (b + y)[..|b|];
    assert x == (a + x)[|a|..] && y == (b + y)[|b|..];
  }

  // ---------------------------------------------------------------- a collision

  /** A group with three teams, whose ids also serve as names of other things. */
  const TEAMS: seq<Node> := [
    Node("g", GroupKind, None, "G", 0), Node("s", SpecializationKind, Some("g"), "S", 0),
    Node("t", TeamKind, Some("s"), "T", 0), Node("p", TeamKind, Some("s"), "P", 1), Node("d", TeamKind, Some("s"), "D", 2)]

  /** The reader, who is a participant in every directory it is given. */
  const READER := Participant("z", "Z", "t", [])

  /** Beside the reader, one participant with a public role, and two participants without any. */
  const ONE: Content := Content(TEAMS, [PublicRole("d", "D")], [Participant("p", "q", "t", ["d"]), READER])
  const TWO: Content := Content(TEAMS, [], [Participant("d", "D", "p", []), Participant("q", "t", "d", []), READER])

  predicate Ordered(ids: seq<Id>) { forall i, j :: 0 <= i < j < |ids| ==> Text.Less(ids[i], ids[j]) }

  function Players(participants: seq<Participant>): seq<Id> {
    seq(|participants|, i requires 0 <= i < |participants| => participants[i].player)
  }

  /**
   * What every directory given to a reader guarantees: the reader is a participant, participants and their roles are in
   * order, listed roles are just the ones participants have, and teams are nodes.
   */
  predicate Plausible(c: Content, reader: Id) {
    && NamedParents(c.nodes)
    && reader in Players(c.participants) && Ordered(Players(c.participants))
    && (forall p <- c.participants :: Ordered(p.roles) && exists n <- c.nodes :: n.kind == TeamKind && n.id == p.team)
    && (forall p <- c.participants :: forall r <- p.roles :: exists role <- c.roles :: role.id == r)
    && (forall role <- c.roles :: exists p <- c.participants :: role.id in p.roles)
  }

  lemma OneIsPlausible()
    ensures Plausible(ONE, "z")
  {
    assert Players(ONE.participants)[1] == "z";
    assert TEAMS[2] in TEAMS;
    assert ONE.roles[0] in ONE.roles && ONE.participants[0] in ONE.participants && "d" in ONE.participants[0].roles;
  }

  lemma TwoIsPlausible()
    ensures Plausible(TWO, "z")
  {
    assert Players(TWO.participants)[2] == "z";
    assert TEAMS[2] in TEAMS && TEAMS[3] in TEAMS && TEAMS[4] in TEAMS;
    assert TEAMS[2].id == "t" && TEAMS[3].id == "p" && TEAMS[4].id == "d";
  }

  lemma OneMoreParticipant(participants: seq<Participant>, p: Participant)
    ensures ParticipantsValues(participants + [p]) == ParticipantsValues(participants) + ParticipantValues(p)
  {
    assert (participants + [p])[..|participants|] == participants;
  }

  lemma OneParticipant(p: Participant)
    ensures ParticipantsValues([p]) == ParticipantValues(p)
  {
    assert [p][..0] == [];
    assert [] + ParticipantValues(p) == ParticipantValues(p);
  }

  lemma TwoParticipants(p: Participant, q: Participant)
    ensures ParticipantsValues([p, q]) == ParticipantValues(p) + ParticipantValues(q)
  {
    assert [p, q][..1] == [p];
    OneParticipant(p);
  }

  lemma OneRole(r: PublicRole)
    ensures RolesValues([r]) == [r.id, r.name]
  {
    assert [r][..0] == [];
  }

  /** The values of a role and a participant that has it can be read as those of two participants. */
  lemma ReadAsParticipants(nodes: seq<string>, role: PublicRole, p: Participant)
    requires p.roles == [role.id]
    ensures nodes + RolesValues([role]) + ParticipantsValues([p]) ==
      nodes + RolesValues([]) + ParticipantsValues([Participant(role.id, role.name, p.player, []), Participant(p.name, p.team, role.id, [])])
  {
    OneRole(role);
    OneParticipant(p);
    TwoParticipants(Participant(role.id, role.name, p.player, []), Participant(p.name, p.team, role.id, []));
  }

  /** The fingerprint does not delimit lists: two different directories of one group, given to one reader, share it. */
  lemma FingerprintsCollide()
    ensures Plausible(ONE, "z") && Plausible(TWO, "z") && ONE != TWO && Fingerprint(ONE) == Fingerprint(TWO)
  {
    OneIsPlausible();
    TwoIsPlausible();
    assert |ONE.roles| == 1 && |TWO.roles| == 0;
    SameValues(NodesValues(TEAMS), ONE.roles[0], ONE.participants[0], READER);
    assert ONE.participants == [ONE.participants[0]] + [READER];
    assert TWO.participants == [TWO.participants[0], TWO.participants[1]] + [READER];
  }

  lemma SameValues(nodes: seq<string>, role: PublicRole, p: Participant, reader: Participant)
    requires p.roles == [role.id]
    ensures nodes + RolesValues([role]) + ParticipantsValues([p] + [reader]) ==
      nodes + RolesValues([]) + ParticipantsValues(
        [Participant(role.id, role.name, p.player, []), Participant(p.name, p.team, role.id, [])] + [reader])
  {
    ReadAsParticipants(nodes, role, p);
    OneMoreParticipant([p], reader);
    OneMoreParticipant([Participant(role.id, role.name, p.player, []), Participant(p.name, p.team, role.id, [])], reader);
    Regroup(nodes + RolesValues([role]), ParticipantsValues([p]), ParticipantValues(reader));
    Regroup(nodes + RolesValues([]), ParticipantsValues([Participant(role.id, role.name, p.player, []), Participant(p.name, p.team, role.id, [])]),
            ParticipantValues(reader));
  }

  // ---------------------------------------------------------------- versions

  datatype Versioned = Versioned(version: nat, fingerprint: string)

  function Larger(a: nat, b: nat): nat { if a < b then b else a }

  /** The version of a content with this fingerprint; none if the version numbers run out. */
  function Assign(known: Option<Versioned>, source: nat, fingerprint: string): Option<Versioned> {
    match known
    case None => Some(Versioned(Larger(1, source), fingerprint))
    case Some(v) =>
      if v.fingerprint == fingerprint then Some(v)
      else if v.version == UINT64_SIZE - 1 then None
      else Some(Versioned(Larger(v.version + 1, source), fingerprint))
  }

  /** A version rises exactly when the fingerprint changes, and never falls. */
  lemma VersionsFollowFingerprints(v: Versioned, source: nat, fingerprint: string)
    ensures var next := Assign(Some(v), source, fingerprint);
      && (next.None? <==> v.fingerprint != fingerprint && v.version == UINT64_SIZE - 1)
      && (next.Some? ==> next.value.fingerprint == fingerprint && next.value.version >= v.version)
      && (next.Some? ==> (next.value.version > v.version <==> fingerprint != v.fingerprint))
      && (next.Some? && fingerprint != v.fingerprint ==> next.value.version >= source && next.value.version in {v.version + 1, source})
    ensures var first := Assign(None, source, fingerprint);
      first.Some? && first.value.fingerprint == fingerprint && first.value.version == if source == 0 then 1 else source
  {}

  type Versions = map<Id, Versioned>

  function Known(versions: Versions, group: Id): Option<Versioned> {
    if group in versions then Some(versions[group]) else None
  }

  class DirectoryVersions {
    var versions: Versions

    constructor ()
      ensures versions == map[]
    {
      versions := map[];
    }

    method VersionOf(group: Id, source: nat, c: Content) returns (version: Option<nat>)
      modifies this
      ensures match Assign(Known(old(versions), group), source, Fingerprint(c))
        case None => version == None && versions == old(versions)
        case Some(v) => version == Some(v.version) && versions == old(versions)[group := v]
    {
      var fingerprint := MakeFingerprint(c);
      if group !in versions {
        versions := versions[group := Versioned(if 1 < source then source else 1, fingerprint)];
      } else if versions[group].fingerprint != fingerprint {
        if versions[group].version == UINT64_SIZE - 1 { return None; }
        var next := versions[group].version + 1;
        versions := versions[group := Versioned(if next < source then source else next, fingerprint)];
      }
      return Some(versions[group].version);
    }
  }

  /** A directory read, with what was found and its fingerprint, and one that was answered, with its version. */
  datatype Read = Read(group: Id, source: nat, content: Content, fingerprint: string)
  datatype Served = Served(group: Id, version: nat, content: Content, fingerprint: string)

  ghost predicate Genuine(requests: seq<Read>) {
    forall i :: 0 <= i < |requests| ==> requests[i].fingerprint == Fingerprint(requests[i].content)
  }

  function VersionsAfter(versions: Versions, r: Read): Versions {
    match Assign(Known(versions, r.group), r.source, r.fingerprint)
    case None => versions
    case Some(v) => versions[r.group := v]
  }

  function Answers(versions: Versions, requests: seq<Read>): seq<Served>
    decreases |requests|
  {
    if requests == [] then []
    else
      var r := requests[0];
      (match Assign(Known(versions, r.group), r.source, r.fingerprint)
       case None => []
       case Some(v) => [Served(r.group, v.version, r.content, r.fingerprint)])
      + Answers(VersionsAfter(versions, r), requests[1..])
  }

  /** What is served comes after what is known: no lower version, and the same version only for the same fingerprint. */
  predicate ComesAfter(v: Versioned, s: Served) {
    v.version <= s.version && (v.version == s.version ==> v.fingerprint == s.fingerprint)
  }

  lemma AnswersStep(versions: Versions, requests: seq<Read>)
    requires requests != []
    ensures var r := requests[0]; var rest := Answers(VersionsAfter(versions, r), requests[1..]);
      var next := Assign(Known(versions, r.group), r.source, r.fingerprint);
      Answers(versions, requests) == if next.None? then rest else [Served(r.group, next.value.version, r.content, r.fingerprint)] + rest
  {}

  lemma {:induction false} AnswersComeAfter(versions: Versions, requests: seq<Read>, k: nat)
    requires k < |Answers(versions, requests)| && Answers(versions, requests)[k].group in versions
    ensures ComesAfter(versions[Answers(versions, requests)[k].group], Answers(versions, requests)[k])
    decreases |requests|
  {
    var r := requests[0];
    var next := Assign(Known(versions, r.group), r.source, r.fingerprint);
    AnswersStep(versions, requests);
    if r.group in versions { VersionsFollowFingerprints(versions[r.group], r.source, r.fingerprint); }
    if next.None? {
      AnswersComeAfter(versions, requests[1..], k);
    } else if k > 0 {
      AnswersComeAfter(VersionsAfter(versions, r), requests[1..], k - 1);
    }
  }

  /** Two answers of one group, the later one after the earlier. */
  predicate InOrder(a: Served, b: Served) {
    a.version <= b.version && (a.version == b.version ==> a.fingerprint == b.fingerprint)
  }

  lemma FirstIsBefore(versions: Versions, requests: seq<Read>, j: nat)
    requires requests != []
    requires Assign(Known(versions, requests[0].group), requests[0].source, requests[0].fingerprint).Some?
    requires j < |Answers(VersionsAfter(versions, requests[0]), requests[1..])|
    requires Answers(VersionsAfter(versions, requests[0]), requests[1..])[j].group == requests[0].group
    ensures InOrder(Answers(versions, requests)[0], Answers(VersionsAfter(versions, requests[0]), requests[1..])[j])
  {
    var r := requests[0];
    AnswersStep(versions, requests);
    AnswersComeAfter(VersionsAfter(versions, r), requests[1..], j);
    AssignKeepsFingerprint(Known(versions, r.group), r.source, r.fingerprint);
  }

  /** Over a whole run, in each group, versions never fall, and a version determines its fingerprint. */
  lemma {:induction false} VersionsDetermine(versions: Versions, requests: seq<Read>, i: nat, j: nat)
    requires i < j < |Answers(versions, requests)|
    requires Answers(versions, requests)[i].group == Answers(versions, requests)[j].group
    ensures InOrder(Answers(versions, requests)[i], Answers(versions, requests)[j])
    decreases |requests|
  {
    var r := requests[0];
    AnswersStep(versions, requests);
    if Assign(Known(versions, r.group), r.source, r.fingerprint).None? {
      VersionsDetermine(VersionsAfter(versions, r), requests[1..], i, j);
    } else if i == 0 {
      FirstIsBefore(versions, requests, j - 1);
    } else {
      VersionsDetermine(VersionsAfter(versions, r), requests[1..], i - 1, j - 1);
    }
  }

  lemma AssignKeepsFingerprint(known: Option<Versioned>, source: nat, fingerprint: string)
    ensures Assign(known, source, fingerprint).Some? ==> Assign(known, source, fingerprint).value.fingerprint == fingerprint
  {}

  lemma GenuineRest(requests: seq<Read>)
    requires requests != [] && Genuine(requests)
    ensures Genuine(requests[1..])
  {}

  /** What is answered carries the fingerprint of its content. */
  lemma {:induction false} AnswersAreGenuine(versions: Versions, requests: seq<Read>, k: nat)
    requires Genuine(requests) && k < |Answers(versions, requests)|
    ensures Answers(versions, requests)[k].fingerprint == Fingerprint(Answers(versions, requests)[k].content)
    decreases |requests|
  {
    var r := requests[0];
    var next := Assign(Known(versions, r.group), r.source, r.fingerprint);
    AnswersStep(versions, requests);
    GenuineRest(requests);
    if next.None? {
      AnswersAreGenuine(VersionsAfter(versions, r), requests[1..], k);
    } else if k > 0 {
      AnswersAreGenuine(VersionsAfter(versions, r), requests[1..], k - 1);
    } else {
      assert r.fingerprint == Fingerprint(r.content);
    }
  }

  // ---------------------------------------------------------------- answers

  function Field(name: string, value: Json.Tree): Json.Named { Json.Named(name, value) }

  function NodeTree(n: Node): Json.Tree {
    Json.Object([
      Field("node_id", Json.Text(n.id)), Field("node_type", Json.Text(KindName(n.kind))),
      Field("parent_node_id", if n.parent.Some? then Json.Text(n.parent.value) else Json.Nothing),
      Field("display_name", Json.Text(n.name)), Field("sort_index", Json.Number(n.index))])
  }

  function RoleTree(r: PublicRole): Json.Tree {
    Json.Object([Field("role_id", Json.Text(r.id)), Field("display_name", Json.Text(r.name))])
  }

  function ParticipantTree(p: Participant): Json.Tree {
    Json.Object([
      Field("player_id", Json.Text(p.player)), Field("display_name", Json.Text(p.name)),
      Field("primary_team_id", Json.Text(p.team)),
      Field("public_role_ids", Json.Array(seq(|p.roles|, i requires 0 <= i < |p.roles| => Json.Text(p.roles[i]))))])
  }

  function DirectoryTree(version: nat, group: Id, c: Content): Json.Tree {
    Json.Object([
      Field("api_version", Json.Text("v1")), Field("directory_version", Json.Number(version)),
      Field("group_id", Json.Text(group)),
      Field("nodes", Json.Array(seq(|c.nodes|, i requires 0 <= i < |c.nodes| => NodeTree(c.nodes[i])))),
      Field("public_roles", Json.Array(seq(|c.roles|, i requires 0 <= i < |c.roles| => RoleTree(c.roles[i])))),
      Field("participants",
            Json.Array(seq(|c.participants|, i requires 0 <= i < |c.participants| => ParticipantTree(c.participants[i]))))])
  }

  function Body(version: nat, group: Id, c: Content): string { Json.Print(DirectoryTree(version, group, c)) }

  lemma {:induction false} ItemsAreSendable(items: seq<Json.Tree>)
    requires forall i :: 0 <= i < |items| ==> Json.Sendable(items[i])
    ensures Json.ItemsSendable(items)
  {
    if items != [] { ItemsAreSendable(items[1..]); }
  }

  lemma NodeIsSendable(n: Node)
    requires n.index < UINT64_SIZE
    ensures Json.Sendable(NodeTree(n))
  {
    var m := NodeTree(n).members;
    assert |m[0].name| == 7 && |m[1].name| == 9 && |m[2].name| == 14 && |m[3].name| == 12 && |m[4].name| == 10;
    DistinctNames(m);
  }

  lemma {:induction false} NameIsNew(m: seq<Json.Named>, name: string)
    requires forall i :: 0 <= i < |m| ==> m[i].name != name
    ensures !Json.Names(m, name)
  {
    if m != [] { NameIsNew(m[1..], name); }
  }

  lemma {:induction false} DistinctNames(m: seq<Json.Named>)
    requires forall i :: 0 <= i < |m| ==> Json.Sendable(m[i].value)
    requires forall i, j :: 0 <= i < j < |m| ==> m[i].name != m[j].name
    ensures Json.MembersSendable(m)
  {
    if m != [] {
      NameIsNew(m[1..], m[0].name);
      DistinctNames(m[1..]);
    }
  }

  lemma RoleIsSendable(r: PublicRole)
    ensures Json.Sendable(RoleTree(r))
  {
    var m := RoleTree(r).members;
    assert |m[0].name| == 7 && |m[1].name| == 12;
    DistinctNames(m);
  }

  lemma ParticipantIsSendable(p: Participant)
    ensures Json.Sendable(ParticipantTree(p))
  {
    var m := ParticipantTree(p).members;
    ItemsAreSendable(m[3].value.items);
    assert |m[0].name| == 9 && |m[1].name| == 12 && |m[2].name| == 15;
    assert m[2].name[1] == 'r' && m[3].name[1] == 'u' && |m[3].name| == 15;
    DistinctNames(m);
  }

  lemma DirectoryIsSendable(version: nat, group: Id, c: Content)
    requires version < UINT64_SIZE && forall i :: 0 <= i < |c.nodes| ==> c.nodes[i].index < UINT64_SIZE
    ensures Json.Sendable(DirectoryTree(version, group, c))
  {
    var m := DirectoryTree(version, group, c).members;
    forall i | 0 <= i < |c.nodes| ensures Json.Sendable(m[3].value.items[i]) { NodeIsSendable(c.nodes[i]); }
    forall i | 0 <= i < |c.roles| ensures Json.Sendable(m[4].value.items[i]) { RoleIsSendable(c.roles[i]); }
    forall i | 0 <= i < |c.participants| ensures Json.Sendable(m[5].value.items[i]) { ParticipantIsSendable(c.participants[i]); }
    ItemsAreSendable(m[3].value.items);
    ItemsAreSendable(m[4].value.items);
    ItemsAreSendable(m[5].value.items);
    DirectoryNames(version, group, c);
    DistinctNames(m);
  }

  /** A client that is sent a directory reads exactly what it says. */
  lemma DirectoryIsReceived(version: nat, group: Id, c: Content)
    requires version < UINT64_SIZE && forall i :: 0 <= i < |c.nodes| ==> c.nodes[i].index < UINT64_SIZE
    ensures Client.Document(Body(version, group, c)) == Some(Json.Meaning(DirectoryTree(version, group, c)))
  {
    DirectoryIsSendable(version, group, c);
    Json.BodyIsRead(DirectoryTree(version, group, c));
  }

  /** The object has this text, or number, under this name. */
  predicate SaysText(v: Client.JsonValue, name: string, text: string) {
    v.Object? && name in v.fields && v.fields[name].Text? && v.fields[name].text == text
  }

  predicate SaysNumber(v: Client.JsonValue, name: string, number: nat) {
    v.Object? && name in v.fields && v.fields[name].Unsigned? && v.fields[name].number == number
  }

  predicate SaysList(v: Client.JsonValue, name: string, length: nat) {
    v.Object? && name in v.fields && v.fields[name].Array? && |v.fields[name].items| == length
  }

  predicate SaysNode(v: Client.JsonValue, n: Node) {
    && SaysText(v, "node_id", n.id) && SaysText(v, "display_name", n.name) && SaysNumber(v, "sort_index", n.index)
    && SaysText(v, "node_type", match n.kind case GroupKind => "group" case SpecializationKind => "specialization" case TeamKind => "team")
    && match n.parent
       case Some(parent) => SaysText(v, "parent_node_id", parent)
       case None => "parent_node_id" in v.fields && v.fields["parent_node_id"].Null?
  }

  predicate SaysRole(v: Client.JsonValue, r: PublicRole) { SaysText(v, "role_id", r.id) && SaysText(v, "display_name", r.name) }

  predicate SaysParticipant(v: Client.JsonValue, p: Participant) {
    && SaysText(v, "player_id", p.player) && SaysText(v, "display_name", p.name) && SaysText(v, "primary_team_id", p.team)
    && SaysList(v, "public_role_ids", |p.roles|)
    && forall i :: 0 <= i < |p.roles| ==> IsText(v.fields["public_role_ids"].items[i], p.roles[i])
  }

  predicate IsText(v: Client.JsonValue, text: string) { v.Text? && v.text == text }

  lemma NodeSays(n: Node)
    requires n.index < UINT64_SIZE
    ensures SaysNode(Json.Meaning(NodeTree(n)), n)
  {
    var m := NodeTree(n).members;
    NodeIsSendable(n);
    Json.MemberIsMeant(m, 0);
    Json.MemberIsMeant(m, 1);
    Json.MemberIsMeant(m, 2);
    Json.MemberIsMeant(m, 3);
    Json.MemberIsMeant(m, 4);
  }

  lemma RoleSays(r: PublicRole)
    ensures SaysRole(Json.Meaning(RoleTree(r)), r)
  {
    var m := RoleTree(r).members;
    RoleIsSendable(r);
    Json.MemberIsMeant(m, 0);
    Json.MemberIsMeant(m, 1);
  }

  lemma ParticipantSays(p: Participant)
    ensures SaysParticipant(Json.Meaning(ParticipantTree(p)), p)
  {
    var m := ParticipantTree(p).members;
    ParticipantIsSendable(p);
    Json.MemberIsMeant(m, 0);
    Json.MemberIsMeant(m, 1);
    Json.MemberIsMeant(m, 2);
    Json.MemberIsMeant(m, 3);
    Json.ItemIsMeant(m[3].value.items);
  }

  /** Version, group, and every node, role and participant in order. */
  ghost predicate SaysDirectory(v: Client.JsonValue, version: nat, group: Id, c: Content) {
    && SaysNumber(v, "directory_version", version) && SaysText(v, "group_id", group)
    && SaysList(v, "nodes", |c.nodes|) && SaysList(v, "public_roles", |c.roles|) && SaysList(v, "participants", |c.participants|)
    && (forall i :: 0 <= i < |c.nodes| ==> SaysNode(v.fields["nodes"].items[i], c.nodes[i]))
    && (forall i :: 0 <= i < |c.roles| ==> SaysRole(v.fields["public_roles"].items[i], c.roles[i]))
    && (forall i :: 0 <= i < |c.participants| ==> SaysParticipant(v.fields["participants"].items[i], c.participants[i]))
  }

  lemma TreeSaysDirectory(version: nat, group: Id, c: Content)
    requires version < UINT64_SIZE && forall i :: 0 <= i < |c.nodes| ==> c.nodes[i].index < UINT64_SIZE
    ensures SaysDirectory(Json.Meaning(DirectoryTree(version, group, c)), version, group, c)
  {
    var m := DirectoryTree(version, group, c).members;
    DirectoryIsSendable(version, group, c);
    Json.MemberIsMeant(m, 1);
    Json.MemberIsMeant(m, 2);
    Json.MemberIsMeant(m, 3);
    Json.MemberIsMeant(m, 4);
    Json.MemberIsMeant(m, 5);
    NodesSay(c.nodes, m[3].value.items);
    RolesSay(c.roles, m[4].value.items);
    ParticipantsSay(c.participants, m[5].value.items);
  }

  /** And that is what the client understands of a body. */
  lemma DirectoryIsUnderstood(version: nat, group: Id, c: Content)
    requires version < UINT64_SIZE && forall i :: 0 <= i < |c.nodes| ==> c.nodes[i].index < UINT64_SIZE
    ensures Client.Document(Body(version, group, c)).Some?
    ensures SaysDirectory(Client.Document(Body(version, group, c)).value, version, group, c)
  {
    DirectoryIsReceived(version, group, c);
    TreeSaysDirectory(version, group, c);
  }

  lemma NodesSay(nodes: seq<Node>, items: seq<Json.Tree>)
    requires |items| == |nodes| && forall i :: 0 <= i < |nodes| ==> items[i] == NodeTree(nodes[i]) && nodes[i].index < UINT64_SIZE
    ensures |Json.MeaningOfItems(items)| == |nodes|
    ensures forall i :: 0 <= i < |nodes| ==> SaysNode(Json.MeaningOfItems(items)[i], nodes[i])
  {
    Json.ItemIsMeant(items);
    forall i | 0 <= i < |nodes| ensures SaysNode(Json.MeaningOfItems(items)[i], nodes[i]) { NodeSays(nodes[i]); }
  }

  lemma RolesSay(roles: seq<PublicRole>, items: seq<Json.Tree>)
    requires |items| == |roles| && forall i :: 0 <= i < |roles| ==> items[i] == RoleTree(roles[i])
    ensures |Json.MeaningOfItems(items)| == |roles|
    ensures forall i :: 0 <= i < |roles| ==> SaysRole(Json.MeaningOfItems(items)[i], roles[i])
  {
    Json.ItemIsMeant(items);
    forall i | 0 <= i < |roles| ensures SaysRole(Json.MeaningOfItems(items)[i], roles[i]) { RoleSays(roles[i]); }
  }

  lemma ParticipantsSay(participants: seq<Participant>, items: seq<Json.Tree>)
    requires |items| == |participants| && forall i :: 0 <= i < |participants| ==> items[i] == ParticipantTree(participants[i])
    ensures |Json.MeaningOfItems(items)| == |participants|
    ensures forall i :: 0 <= i < |participants| ==> SaysParticipant(Json.MeaningOfItems(items)[i], participants[i])
  {
    Json.ItemIsMeant(items);
    forall i | 0 <= i < |participants| ensures SaysParticipant(Json.MeaningOfItems(items)[i], participants[i]) {
      ParticipantSays(participants[i]);
    }
  }

  lemma DirectoryNames(version: nat, group: Id, c: Content)
    ensures var m := DirectoryTree(version, group, c).members;
      |m| == 6 && forall i, j :: 0 <= i < j < 6 ==> m[i].name != m[j].name
  {
    var m := DirectoryTree(version, group, c).members;
    assert |m[0].name| == 11 && |m[1].name| == 17 && |m[2].name| == 8 && |m[3].name| == 5 && |m[4].name| == 12;
    assert m[4].name[1] == 'u' && m[5].name[1] == 'a' && |m[5].name| == 12;
  }

  /** The lists of a body are written item by item, with commas between them. */
  method WriteItems(items: seq<Json.Tree>) returns (text: string)
    ensures text == Json.PrintItems(items)
  {
    text := "";
    for i := 0 to |items|
      invariant text == Json.PrintItems(items[..i])
    {
      ItemsMore(items[..i], items[i]);
      assert items[..i + 1] == items[..i] + [items[i]];
      if i != 0 { text := text + ","; }
      text := text + Json.Print(items[i]);
    }
    assert items[..|items|] == items;
  }

  lemma {:induction false} ItemsMore(items: seq<Json.Tree>, item: Json.Tree)
    ensures Json.PrintItems(items + [item]) == Json.PrintItems(items) + (if items == [] then "" else ",") + Json.Print(item)
  {
    if items == [] {
      assert items + [item] == [item];
    } else {
      ItemsMore(items[1..], item);
      assert (items + [item])[1..] == items[1..] + [item];
      var first, rest := Json.Print(items[0]), Json.PrintItems(items[1..]);
      if |items| == 1 {
        assert items[1..] == [];
        assert rest == "" && first + "" == first;
        assert first + ("," + ("" + "" + Json.Print(item))) == first + "," + Json.Print(item);
      } else {
        assert first + ("," + (rest + "," + Json.Print(item))) == first + ("," + rest) + "," + Json.Print(item);
      }
    }
  }

  function Etag(version: nat): string { "\"directory-" + Decimal.Print(version) + "\"" }

  datatype Response = NotModified(etag: string) | Full(etag: string, body: string)

  function Respond(version: nat, group: Id, c: Content, ifNoneMatch: string): Response {
    if ifNoneMatch == Etag(version) then NotModified(Etag(version)) else Full(Etag(version), Body(version, group, c))
  }

  lemma EtagsAreVersions(a: nat, b: nat)
    requires Etag(a) == Etag(b)
    ensures a == b
  {
    var prefix := "\"directory-";
    assert Etag(a)[|prefix|..|Etag(a)| - 1] == Decimal.Print(a) && Etag(b)[|prefix|..|Etag(b)| - 1] == Decimal.Print(b);
    Decimal.PrintIsInjective(a, b);
  }

  /**
   * A client that presents the tag of an earlier answer is told "not modified" exactly if the version is the same; the
   * fingerprint is then the same too, and if the lists still have their lengths, the body would be identical.
   */
  lemma NotModifiedIsIdentical(requests: seq<Read>, i: nat, j: nat)
    requires Genuine(requests) && i < j < |Answers(map[], requests)|
    requires Answers(map[], requests)[i].group == Answers(map[], requests)[j].group
    requires NamedParents(Answers(map[], requests)[i].content.nodes) && NamedParents(Answers(map[], requests)[j].content.nodes)
    ensures var a := Answers(map[], requests)[i]; var b := Answers(map[], requests)[j];
      var r := Respond(b.version, b.group, b.content, Etag(a.version));
      && (r.NotModified? <==> a.version == b.version)
      && (r.NotModified? ==> Fingerprint(a.content) == Fingerprint(b.content))
      && (r.NotModified? && SameShape(a.content, b.content) ==>
            Body(a.version, a.group, a.content) == Body(b.version, b.group, b.content))
  {
    var a, b := Answers(map[], requests)[i], Answers(map[], requests)[j];
    if Etag(a.version) == Etag(b.version) {
      EtagsAreVersions(a.version, b.version);
      VersionsDetermine(map[], requests, i, j);
      AnswersAreGenuine(map[], requests, i);
      AnswersAreGenuine(map[], requests, j);
      FingerprintDetermines(a.content, b.content);
    }
  }

  /** Without the lengths it may not be: one reader's directory, changed by a newer context, is answered "not modified". */
  lemma NotModifiedMayBeWrong()
    ensures var f := Fingerprint(ONE);
      var requests := [Read("g", 1, ONE, f), Read("g", 2, TWO, f)];
      && Genuine(requests) && ONE != TWO && Plausible(ONE, "z") && Plausible(TWO, "z")
      && Answers(map[], requests) == [Served("g", 1, ONE, f), Served("g", 1, TWO, f)]
      && Respond(1, "g", TWO, Etag(1)).NotModified?
  {
    FingerprintsCollide();
    SameMarkSameVersion(Read("g", 1, ONE, Fingerprint(ONE)), Read("g", 2, TWO, Fingerprint(ONE)));
  }

  lemma SameMarkSameVersion(a: Read, b: Read)
    requires a.group == b.group && a.fingerprint == b.fingerprint && a.source == 1
    ensures Answers(map[], [a, b]) == [Served(a.group, 1, a.content, a.fingerprint), Served(b.group, 1, b.content, b.fingerprint)]
  {
    var v := Versioned(1, a.fingerprint);
    assert [a, b][1..] == [b] && [b][1..] == [];
    assert VersionsAfter(map[], a) == map[a.group := v];
    AnswersStep(map[], [a, b]);
    AnswersStep(map[a.group := v], [b]);
  }
}
