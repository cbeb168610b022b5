/**
 * What routing and grants decide, in terms of the snapshot's own members, groups, scopes and role lists: a request is accepted,
 * refused with its error, heard by a player, or backed by claims exactly under these conditions.
 */
module Permissions {
  import opened Basics
  import opened Domain
  import Routing
  import VoiceGrants

  // ---------------------------------------------------------------- lookups

  /** Some role in force lists the scope for transmitting. */
  ghost predicate ListedToTransmit(policy: RolePolicy, m: Membership, scope: VoiceScope) {
    exists i :: InForce(policy, m.roles, i) && scope in policy.roles[i].transmit
  }

  ghost predicate ListedToReceive(policy: RolePolicy, m: Membership, scope: VoiceScope) {
    exists i :: InForce(policy, m.roles, i) && scope in policy.roles[i].receive
  }

  lemma {:induction false} GroupIsFound(groups: seq<GroupNode>, g: GroupNode)
    requires g in groups && Distinct(GroupIds(groups))
    ensures FindGroup(groups, g.id) == Some(g)
  {
    assert GroupIds(groups)[0] == groups[0].id;
    if groups[0] != g {
      var i :| 0 < i < |groups| && groups[i] == g;
      assert GroupIds(groups)[i] == g.id;
      assert forall k :: 0 <= k < |groups[1..]| ==> GroupIds(groups[1..])[k] == GroupIds(groups)[k + 1];
      assert groups[1..][i - 1] == g;
      GroupIsFound(groups[1..], g);
    }
  }

  lemma {:induction false} FoundGroupIsListed(groups: seq<GroupNode>, id: Id)
    ensures FindGroup(groups, id).Some? ==> FindGroup(groups, id).value in groups && FindGroup(groups, id).value.id == id
  {
    if groups != [] { FoundGroupIsListed(groups[1..], id); }
  }

  /** The member's group is one of the hierarchy's, and active. */
  ghost predicate InActiveGroup(h: Hierarchy, m: Membership) { exists g :: g in h.groups && g.id == m.groupId && g.active }

  lemma ActiveGroupIsFound(h: Hierarchy, m: Membership)
    requires ValidHierarchy(h)
    ensures InActiveGroup(h, m) <==> FindGroup(h.groups, m.groupId).Some? && FindGroup(h.groups, m.groupId).value.active
  {
    FoundGroupIsListed(h.groups, m.groupId);
    if InActiveGroup(h, m) {
      var g :| g in h.groups && g.id == m.groupId && g.active;
      GroupIsFound(h.groups, g);
    }
  }

  ghost predicate HasScope(h: Hierarchy, scope: VoiceScope) { exists d :: d in h.scopes && d.scope == scope }

  // ---------------------------------------------------------------- who may speak

  /** What a request needs of its sender's membership, in the order of the checks. */
  ghost function Verdict(s: Snapshot, policy: RolePolicy, m: Membership, scope: VoiceScope): Option<Routing.RoutingError> {
    if !m.connected then Some(Routing.NotConnected)
    else if !InActiveGroup(s.hierarchy, m) then Some(Routing.NoActiveMembership)
    else if !HasScope(s.hierarchy, scope) then Some(Routing.ScopeNotFound)
    else if m.transmitMuted || m.ban == Temporary || m.ban == Permanent then Some(Routing.TransmitMuted)
    else if !ListedToTransmit(policy, m, scope) then Some(Routing.ScopeNotAuthorized)
    else None
  }

  /** The verdict on a request follows from the version and the one membership of its sender, if there is one. */
  lemma RequestIsJudged(s: Snapshot, policy: RolePolicy, request: Routing.Request)
    requires ValidSnapshot(s)
    ensures Routing.Obstacle(s, policy, request) == Some(Routing.MembershipStale) <==> request.membershipVersion != s.version
    ensures request.membershipVersion == s.version && (forall m <- s.memberships :: m.player != request.sender) ==>
      Routing.Obstacle(s, policy, request) == Some(Routing.NoActiveMembership)
    ensures request.membershipVersion == s.version ==> forall m <- s.memberships :: m.player == request.sender ==>
      Routing.Obstacle(s, policy, request) == Verdict(s, policy, m, request.scope)
  {
    FindIsMembership(s, request.sender);
    if request.membershipVersion == s.version {
      forall m | m in s.memberships && m.player == request.sender
        ensures Routing.Obstacle(s, policy, request) == Verdict(s, policy, m, request.scope)
      {
        assert Find(s, request.sender) == Some(m);
        ActiveGroupIsFound(s.hierarchy, m);
        VoiceGrants.DefinedIsMember(s.hierarchy.scopes, request.scope);
        TransmitIsListed(policy, m.roles, request.scope);
      }
    }
  }

  /** Accepted exactly for a connected, unsanctioned member of an active group with a role that lists the scope for transmitting. */
  lemma AcceptedExactly(s: Snapshot, policy: RolePolicy, request: Routing.Request)
    requires ValidSnapshot(s)
    ensures Routing.Obstacle(s, policy, request).None? <==>
      && request.membershipVersion == s.version
      && exists m :: m in s.memberships && m.player == request.sender
           && m.connected && !m.transmitMuted && m.ban == NotBanned
           && InActiveGroup(s.hierarchy, m) && HasScope(s.hierarchy, request.scope)
           && ListedToTransmit(policy, m, request.scope)
  {
    RequestIsJudged(s, policy, request);
  }

  // ---------------------------------------------------------------- who is heard by whom

  /** The same team; the same specialization; the same group. */
  predicate Together(a: Membership, b: Membership, scope: VoiceScope) {
    && a.groupId == b.groupId
    && (scope != Group ==> a.specializationId == b.specializationId)
    && (scope == Team ==> a.teamId == b.teamId)
  }

  /** A player is a recipient exactly if it is connected, may receive the scope by some role, sits with the sender and has not blocked it. */
  lemma RecipientExactly(s: Snapshot, policy: RolePolicy, sender: Membership, scope: VoiceScope,
                         restrictions: seq<Routing.Restriction>, player: Id)
    ensures player in Routing.Recipients(policy, sender, scope, restrictions, s.memberships) <==>
      exists m :: m in s.memberships && m.player == player
        && m.connected && m.canReceive && Together(sender, m, scope)
        && ListedToReceive(policy, m, scope)
        && Routing.Restriction(player, sender.player) !in restrictions
  {
    Routing.RecipientsAreReceivers(policy, sender, scope, restrictions, s.memberships, player);
    forall m | m in s.memberships
      ensures Routing.Receives(policy, sender, m, scope, restrictions) <==>
        && m.connected && m.canReceive && Together(sender, m, scope) && ListedToReceive(policy, m, scope)
        && Routing.Restriction(m.player, sender.player) !in restrictions
    {
      ReceiveIsListed(policy, m.roles, scope);
    }
  }

  // ---------------------------------------------------------------- what a session may join

  /** The claims name a scope for transmitting, or for receiving, exactly if the hierarchy has it and the member's roles list it. */
  lemma ClaimsExactly(context: VoiceGrants.Context, claims: VoiceGrants.Claims, player: Id, m: Membership, scope: VoiceScope)
    requires ValidSnapshot(context.snapshot) && VoiceGrants.ClaimsFor(context, claims, player)
    requires m in context.snapshot.memberships && m.player == player
    ensures scope in claims.transmit <==>
      && HasScope(context.snapshot.hierarchy, scope) && !m.transmitMuted && m.ban == NotBanned
      && ListedToTransmit(context.policy, m, scope)
    ensures scope in claims.receive <==>
      && HasScope(context.snapshot.hierarchy, scope) && m.canReceive
      && ListedToReceive(context.policy, m, scope)
    ensures VoiceGrants.RoomFor(claims, scope) ==
      match scope { case Team => "team:" + m.teamId case Specialization => "specialization:" + m.specializationId case Group => "group:" + m.groupId }
  {
    FindIsMembership(context.snapshot, player);
    assert Find(context.snapshot, player) == Some(m);
    VoiceGrants.DefinedIsMember(context.snapshot.hierarchy.scopes, scope);
    TransmitIsListed(context.policy, m.roles, scope);
    ReceiveIsListed(context.policy, m.roles, scope);
  }

  /** A grant is refused with the first thing that is missing: the session, its device, its time, its membership, its connection. */
  lemma GrantIsJudged(sessions: map<Id, VoiceGrants.Session>, contexts: map<Id, VoiceGrants.Context>, session: Id, device: Id,
                      now: VoiceGrants.Time)
    requires forall player <- contexts :: ValidSnapshot(contexts[player].snapshot)
    ensures var obstacle := VoiceGrants.Obstacle(sessions, contexts, session, device, now);
      && (obstacle == Some(VoiceGrants.SessionNotFound) <==> session !in sessions)
      && (session in sessions ==> var found := sessions[session];
            && (obstacle == Some(VoiceGrants.SessionDeviceMismatch) <==> found.device != device)
            && (obstacle == Some(VoiceGrants.SessionExpired) <==> found.device == device && found.expiresAt <= now)
            && (found.device == device && now < found.expiresAt ==>
                  && (obstacle == Some(VoiceGrants.MembershipUnavailable) <==> found.player !in contexts)
                  && (found.player in contexts ==> var members := contexts[found.player].snapshot.memberships;
                        && (obstacle == Some(VoiceGrants.PlayerNotInMembership) <==> forall m <- members :: m.player != found.player)
                        && (obstacle == Some(VoiceGrants.NotConnected) <==> exists m :: m in members && m.player == found.player && !m.connected)
                        && (obstacle.None? <==> exists m :: m in members && m.player == found.player && m.connected))))
  {
    if session in sessions && sessions[session].player in contexts {
      FindIsMembership(contexts[sessions[session].player].snapshot, sessions[session].player);
    }
  }
}
