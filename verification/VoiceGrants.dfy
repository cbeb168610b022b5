/** Voice grants: what a session may join, and the rooms its transmissions are published in. */
module VoiceGrants {
  import opened Basics
  import opened Domain

  type Time = int

  datatype Session = Session(id: Id, player: Id, device: Id, expiresAt: Time)
  datatype Context = Context(snapshot: Snapshot, policy: RolePolicy)

  datatype Claims = Claims(
    player: Id,
    device: Id,
    membershipVersion: nat,
    groupId: Id,
    specializationId: Id,
    teamId: Id,
    transmit: seq<VoiceScope>,
    receive: seq<VoiceScope>,
    expiresAt: Time)

  datatype GrantError =
    | SessionNotFound | SessionDeviceMismatch | SessionExpired
    | MembershipUnavailable | PlayerNotInMembership | NotConnected

  datatype GrantResult = Granted(claims: Claims) | Refused(error: GrantError)

  /** A signed grant to join one room; no grant ever permits publishing. */
  datatype RoomGrant = RoomGrant(scope: VoiceScope, room: string, canSubscribe: bool)

  predicate ActiveAt(session: Session, now: Time) { now < session.expiresAt }

  predicate MayTransmit(policy: RolePolicy, m: Membership, scope: VoiceScope) {
    !m.transmitMuted && m.ban == NotBanned && CanTransmit(policy, m.roles, scope)
  }

  predicate MayReceive(policy: RolePolicy, m: Membership, scope: VoiceScope) {
    m.canReceive && CanReceive(policy, m.roles, scope)
  }

  /** The first obstacle to a grant, in the order in which it is looked for. */
  function Obstacle(sessions: map<Id, Session>, contexts: map<Id, Context>, session: Id, device: Id, now: Time)
    : Option<GrantError>
  {
    if session !in sessions then Some(SessionNotFound)
    else if sessions[session].device != device then Some(SessionDeviceMismatch)
    else if !ActiveAt(sessions[session], now) then Some(SessionExpired)
    else if sessions[session].player !in contexts then Some(MembershipUnavailable)
    else
      var m := Find(contexts[sessions[session].player].snapshot, sessions[session].player);
      if m.None? then Some(PlayerNotInMembership) else if !m.value.connected then Some(GrantError.NotConnected) else None
  }

  /** A grant follows the current membership: exactly the hierarchy's scopes the roles and sanctions leave open. */
  method Derive(sessions: map<Id, Session>, contexts: map<Id, Context>, session: Id, device: Id, now: Time, lifetime: Time)
    returns (r: GrantResult)
    ensures r.Refused? <==> Obstacle(sessions, contexts, session, device, now).Some?
    ensures r.Refused? ==> Some(r.error) == Obstacle(sessions, contexts, session, device, now)
    ensures r.Granted? ==> ClaimsFor(contexts[sessions[session].player], r.claims, sessions[session].player)
    ensures r.Granted? ==>
      var context := contexts[sessions[session].player];
      var m := Find(context.snapshot, sessions[session].player).value;
      forall scope ::
        && (scope in r.claims.transmit ==> exists i :: InForce(context.policy, m.roles, i) && scope in context.policy.roles[i].transmit)
        && (scope in r.claims.receive ==> exists i :: InForce(context.policy, m.roles, i) && scope in context.policy.roles[i].receive)
    ensures r.Granted? ==> r.claims.device == device && r.claims.expiresAt in [sessions[session].expiresAt, now + lifetime]
    ensures r.Granted? ==> r.claims.expiresAt <= sessions[session].expiresAt && r.claims.expiresAt <= now + lifetime
  {
    if session !in sessions { return Refused(SessionNotFound); }
    var found := sessions[session];
    if found.device != device { return Refused(SessionDeviceMismatch); }
    if !ActiveAt(found, now) { return Refused(SessionExpired); }
    if found.player !in contexts { return Refused(MembershipUnavailable); }
    var context := contexts[found.player];
    var membership := Find(context.snapshot, found.player);
    if membership.None? { return Refused(PlayerNotInMembership); }
    var m := membership.value;
    if !m.connected { return Refused(GrantError.NotConnected); }

    var transmit: seq<VoiceScope> := [];
    var receive: seq<VoiceScope> := [];
    var scopes := context.snapshot.hierarchy.scopes;
    for i := 0 to |scopes|
      invariant forall scope :: scope in transmit <==> Defined(scopes[..i], scope) && MayTransmit(context.policy, m, scope)
      invariant forall scope :: scope in receive <==> Defined(scopes[..i], scope) && MayReceive(context.policy, m, scope)
    {
      var scope := scopes[i].scope;
      forall other: VoiceScope ensures Defined(scopes[..i + 1], other) <==> Defined(scopes[..i], other) || other == scope {
        DefinedAppend(scopes, i, other);
      }
      transmit := transmit + if MayTransmit(context.policy, m, scope) then [scope] else [];
      receive := receive + if MayReceive(context.policy, m, scope) then [scope] else [];
    }
    assert scopes[..|scopes|] == scopes;
    forall other: VoiceScope
      ensures other in transmit ==> exists i :: InForce(context.policy, m.roles, i) && other in context.policy.roles[i].transmit
      ensures other in receive ==> exists i :: InForce(context.policy, m.roles, i) && other in context.policy.roles[i].receive
    {
      TransmitIsListed(context.policy, m.roles, other);
      ReceiveIsListed(context.policy, m.roles, other);
    }
    var expiration := if found.expiresAt < now + lifetime then found.expiresAt else now + lifetime;
    return Granted(Claims(found.player, device, context.snapshot.version, m.groupId, m.specializationId, m.teamId,
                          transmit, receive, expiration));
  }

  predicate Defined(scopes: seq<ScopeDefinition>, scope: VoiceScope) { FindScope(scopes, scope).Some? }

  lemma {:induction false} DefinedIsMember(scopes: seq<ScopeDefinition>, scope: VoiceScope)
    ensures Defined(scopes, scope) <==> exists d :: d in scopes && d.scope == scope
  {
    if scopes != [] { DefinedIsMember(scopes[1..], scope); }
  }

  lemma DefinedAppend(scopes: seq<ScopeDefinition>, i: nat, scope: VoiceScope)
    requires i < |scopes|
    ensures Defined(scopes[..i + 1], scope) <==> Defined(scopes[..i], scope) || scope == scopes[i].scope
  {
    DefinedIsMember(scopes[..i], scope);
    DefinedIsMember(scopes[..i + 1], scope);
    assert scopes[..i + 1] == scopes[..i] + [scopes[i]];
  }

  /** The claims are the player's own membership and the open scopes. */
  ghost predicate ClaimsFor(context: Context, claims: Claims, player: Id) {
    var m := Find(context.snapshot, player);
    && m.Some? && m.value.connected
    && claims.player == player
    && claims.membershipVersion == context.snapshot.version
    && claims.groupId == m.value.groupId
    && claims.specializationId == m.value.specializationId
    && claims.teamId == m.value.teamId
    && (forall scope :: scope in claims.transmit <==>
          Defined(context.snapshot.hierarchy.scopes, scope) && MayTransmit(context.policy, m.value, scope))
    && (forall scope :: scope in claims.receive <==>
          Defined(context.snapshot.hierarchy.scopes, scope) && MayReceive(context.policy, m.value, scope))
  }

  // ---------------------------------------------------------------- rooms

  function RoomName(scope: VoiceScope, node: Id): string {
    match scope
    case Team => "team:" + node
    case Specialization => "specialization:" + node
    case Group => "group:" + node
  }

  function RoomFor(claims: Claims, scope: VoiceScope): string {
    match scope
    case Team => "team:" + claims.teamId
    case Specialization => "specialization:" + claims.specializationId
    case Group => "group:" + claims.groupId
  }

  /** Different nodes never share a room, not even across scopes. */
  lemma RoomNamesAreInjective(scope: VoiceScope, node: Id, other: VoiceScope, otherNode: Id)
    requires RoomName(scope, node) == RoomName(other, otherNode)
    ensures scope == other && node == otherNode
  {
    var room := RoomName(scope, node);
    assert room[0] == (match scope case Team => 't' case Specialization => 's' case Group => 'g');
    assert room[0] == (match other case Team => 't' case Specialization => 's' case Group => 'g');
    var prefix := match scope case Team => 5 case Specialization => 15 case Group => 6;
    assert node == room[prefix..] && otherNode == room[prefix..];
  }

  const SCOPES: seq<VoiceScope> := [Team, Specialization, Group]

  /** One grant for each scope that is open in either direction, lowest scope first. */
  method Issue(claims: Claims) returns (grants: seq<RoomGrant>)
    ensures forall g :: g in grants <==>
      && (g.scope in claims.transmit || g.scope in claims.receive)
      && g.room == RoomFor(claims, g.scope)
      && g.canSubscribe == (g.scope in claims.receive)
    ensures forall i, j :: 0 <= i < j < |grants| ==> grants[i].scope != grants[j].scope
  {
    grants := [];
    for i := 0 to |SCOPES|
      invariant forall g :: g in grants <==> g.scope in SCOPES[..i] && IsGrant(claims, g)
      invariant forall k :: 0 <= k < |grants| ==> grants[k].scope in SCOPES[..i]
      invariant forall k, j :: 0 <= k < j < |grants| ==> grants[k].scope != grants[j].scope
    {
      var scope := SCOPES[i];
      assert SCOPES[..i + 1] == SCOPES[..i] + [scope] && scope !in SCOPES[..i];
      var canTransmit := scope in claims.transmit;
      var canSubscribe := scope in claims.receive;
      if !canTransmit && !canSubscribe { continue; }
      grants := grants + [RoomGrant(scope, RoomFor(claims, scope), canSubscribe)];
    }
    forall scope: VoiceScope ensures scope in SCOPES[..|SCOPES|] {
      assert SCOPES[..|SCOPES|] == SCOPES;
      assert scope == SCOPES[0] || scope == SCOPES[1] || scope == SCOPES[2];
    }
    assert forall g :: g in grants <==> IsGrant(claims, g);
  }

  predicate IsGrant(claims: Claims, g: RoomGrant) {
    && (g.scope in claims.transmit || g.scope in claims.receive)
    && g.room == RoomFor(claims, g.scope)
    && g.canSubscribe == (g.scope in claims.receive)
  }
}
