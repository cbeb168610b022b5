/** Who receives a transmission: the server's recipient resolution for one snapshot and role policy. */
module Routing {
  import opened Basics
  import opened Domain

  datatype Request = Request(sender: Id, scope: VoiceScope, membershipVersion: nat)
  datatype Restriction = Restriction(recipient: Id, blockedSender: Id)

  datatype RoutingError =
    | NotConnected | NoActiveMembership | ScopeNotFound | ScopeNotAuthorized | TransmitMuted | MembershipStale

  datatype Resolution = Accepted(recipients: seq<Id>) | Rejected(error: RoutingError)

  predicate BelongsToScope(sender: Membership, candidate: Membership, scope: VoiceScope) {
    match scope
    case Team =>
      && candidate.groupId == sender.groupId
      && candidate.specializationId == sender.specializationId
      && candidate.teamId == sender.teamId
    case Specialization =>
      candidate.groupId == sender.groupId && candidate.specializationId == sender.specializationId
    case Group => candidate.groupId == sender.groupId
  }

  predicate IsRestricted(restrictions: seq<Restriction>, recipient: Id, sender: Id) {
    Restriction(recipient, sender) in restrictions
  }

  predicate Receives(policy: RolePolicy, sender: Membership, candidate: Membership, scope: VoiceScope,
                     restrictions: seq<Restriction>) {
    && candidate.connected && candidate.canReceive
    && CanReceive(policy, candidate.roles, scope)
    && BelongsToScope(sender, candidate, scope)
    && !IsRestricted(restrictions, candidate.player, sender.player)
  }

  /** The first obstacle to a request, in the order in which requests are checked. */
  function Obstacle(s: Snapshot, policy: RolePolicy, request: Request): Option<RoutingError> {
    var sender := Find(s, request.sender);
    if request.membershipVersion != s.version then Some(MembershipStale)
    else if sender.None? then Some(NoActiveMembership)
    else if !sender.value.connected then Some(NotConnected)
    else
      var group := FindGroup(s.hierarchy.groups, sender.value.groupId);
      if group.None? || !group.value.active then Some(NoActiveMembership)
      else if FindScope(s.hierarchy.scopes, request.scope).None? then Some(ScopeNotFound)
      else if sender.value.transmitMuted || sender.value.ban != NotBanned then Some(TransmitMuted)
      else if !CanTransmit(policy, sender.value.roles, request.scope) then Some(ScopeNotAuthorized)
      else None
  }

  /** The players of those memberships that receive, in the order of the memberships. */
  ghost function Recipients(policy: RolePolicy, sender: Membership, scope: VoiceScope,
                            restrictions: seq<Restriction>, memberships: seq<Membership>): seq<Id> {
    if memberships == [] then []
    else
      var last := memberships[|memberships| - 1];
      Recipients(policy, sender, scope, restrictions, memberships[..|memberships| - 1])
      + if Receives(policy, sender, last, scope, restrictions) then [last.player] else []
  }

  /** A request is accepted exactly when nothing stands in its way, and its recipients are those who receive. */
  method Resolve(s: Snapshot, policy: RolePolicy, request: Request, restrictions: seq<Restriction>)
    returns (r: Resolution)
    ensures r.Rejected? <==> Obstacle(s, policy, request).Some?
    ensures r.Rejected? ==> Some(r.error) == Obstacle(s, policy, request)
    ensures r.Accepted? ==> Find(s, request.sender).Some?
    ensures r.Accepted? ==>
      r.recipients == Recipients(policy, Find(s, request.sender).value, request.scope, restrictions, s.memberships)
    ensures r.Accepted? ==>
      exists i :: InForce(policy, Find(s, request.sender).value.roles, i) && request.scope in policy.roles[i].transmit
  {
    if request.membershipVersion != s.version { return Rejected(MembershipStale); }
    var sender := Find(s, request.sender);
    if sender.None? { return Rejected(NoActiveMembership); }
    if !sender.value.connected { return Rejected(NotConnected); }
    var group := FindGroup(s.hierarchy.groups, sender.value.groupId);
    if group.None? || !group.value.active { return Rejected(NoActiveMembership); }
    if FindScope(s.hierarchy.scopes, request.scope).None? { return Rejected(ScopeNotFound); }
    if sender.value.transmitMuted || sender.value.ban != NotBanned { return Rejected(TransmitMuted); }
    if !CanTransmit(policy, sender.value.roles, request.scope) { return Rejected(ScopeNotAuthorized); }
    TransmitIsListed(policy, sender.value.roles, request.scope);

    var recipients: seq<Id> := [];
    for i := 0 to |s.memberships|
      invariant recipients == Recipients(policy, sender.value, request.scope, restrictions, s.memberships[..i])
    {
      var candidate := s.memberships[i];
      assert s.memberships[..i + 1][..i] == s.memberships[..i];
      if candidate.connected && candidate.canReceive && CanReceive(policy, candidate.roles, request.scope)
        && BelongsToScope(sender.value, candidate, request.scope)
        && !IsRestricted(restrictions, candidate.player, sender.value.player)
      {
        recipients := recipients + [candidate.player];
      }
    }
    assert s.memberships[..|s.memberships|] == s.memberships;
    return Accepted(recipients);
  }

  lemma {:induction false} RecipientsAreReceivers(policy: RolePolicy, sender: Membership, scope: VoiceScope,
                                                  restrictions: seq<Restriction>, memberships: seq<Membership>, player: Id)
    ensures player in Recipients(policy, sender, scope, restrictions, memberships) <==>
      exists m :: m in memberships && m.player == player && Receives(policy, sender, m, scope, restrictions)
  {
    if memberships != [] {
      var front, last := memberships[..|memberships| - 1], memberships[|memberships| - 1];
      RecipientsAreReceivers(policy, sender, scope, restrictions, front, player);
      assert memberships == front + [last];
    }
  }

  /** No player is listed twice, because no player has two memberships. */
  lemma {:induction false} RecipientsAreDistinct(policy: RolePolicy, sender: Membership, scope: VoiceScope,
                                                 restrictions: seq<Restriction>, memberships: seq<Membership>)
    requires Sorted(memberships)
    ensures Distinct(Recipients(policy, sender, scope, restrictions, memberships))
  {
    if memberships != [] {
      var front, last := memberships[..|memberships| - 1], memberships[|memberships| - 1];
      RecipientsAreDistinct(policy, sender, scope, restrictions, front);
      RecipientsAreReceivers(policy, sender, scope, restrictions, front, last.player);
      if last.player in Recipients(policy, sender, scope, restrictions, front) {
        var m :| m in front && m.player == last.player;
        var i :| 0 <= i < |front| && front[i] == m;
        SortedAt(memberships, i, |memberships| - 1);
        Text.LessIsStrict(last.player, last.player);
      }
    }
  }

  /** On valid paths, sharing all ancestors is the same as sharing the node itself. */
  lemma ScopeIsNode(h: Hierarchy, sender: Membership, candidate: Membership, scope: VoiceScope)
    requires OnPath(h, sender) && OnPath(h, candidate)
    ensures BelongsToScope(sender, candidate, scope) <==> ScopeNodeId(sender, scope) == ScopeNodeId(candidate, scope)
  {
    NodeDeterminesAncestors(h, sender, candidate);
  }
}
