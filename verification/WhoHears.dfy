/**
 * Two independent computations of who hears a transmission: the recipients the server resolves for it, and
 * the rooms its players may subscribe to.  For one membership snapshot and role policy they agree.
 */
module WhoHears {
  import opened Basics
  import opened Domain
  import Routing
  import VoiceGrants

  /** The grants of one player, as derived from its membership, let it listen in a room. */
  ghost predicate ListensIn(claims: VoiceGrants.Claims, room: string) {
    exists g :: VoiceGrants.IsGrant(claims, g) && g.canSubscribe && g.room == room
  }

  /** The room in which an accepted transmission is published. */
  function PublicationRoom(sender: Membership, scope: VoiceScope): string {
    VoiceGrants.RoomName(scope, ScopeNodeId(sender, scope))
  }

  lemma ClaimsRoom(context: VoiceGrants.Context, claims: VoiceGrants.Claims, player: Id, scope: VoiceScope)
    requires VoiceGrants.ClaimsFor(context, claims, player)
    ensures VoiceGrants.RoomFor(claims, scope) ==
      VoiceGrants.RoomName(scope, ScopeNodeId(Find(context.snapshot, player).value, scope))
  {}

  /** Listening in a room is receiving at its scope and sitting at its node. */
  lemma ListensExactly(context: VoiceGrants.Context, claims: VoiceGrants.Claims, player: Id, scope: VoiceScope, node: Id)
    requires VoiceGrants.ClaimsFor(context, claims, player)
    ensures ListensIn(claims, VoiceGrants.RoomName(scope, node)) <==>
      scope in claims.receive && ScopeNodeId(Find(context.snapshot, player).value, scope) == node
  {
    var room := VoiceGrants.RoomName(scope, node);
    ClaimsRoom(context, claims, player, scope);
    if ListensIn(claims, room) {
      var g :| VoiceGrants.IsGrant(claims, g) && g.canSubscribe && g.room == room;
      ClaimsRoom(context, claims, player, g.scope);
      VoiceGrants.RoomNamesAreInjective(g.scope, ScopeNodeId(Find(context.snapshot, player).value, g.scope), scope, node);
    }
    if scope in claims.receive && ScopeNodeId(Find(context.snapshot, player).value, scope) == node {
      assert VoiceGrants.IsGrant(claims, VoiceGrants.RoomGrant(scope, room, true));
    }
  }

  /**
   * For an accepted request, a player with grants is a recipient exactly when its grants let it listen in the
   * room the sender publishes in and it has not blocked the sender.
   */
  lemma WhoHears(s: Snapshot, policy: RolePolicy, request: Routing.Request, restrictions: seq<Routing.Restriction>,
                 claims: VoiceGrants.Claims, player: Id)
    requires ValidSnapshot(s) && Routing.Obstacle(s, policy, request).None?
    requires VoiceGrants.ClaimsFor(VoiceGrants.Context(s, policy), claims, player)
    ensures var sender := Find(s, request.sender).value;
      player in Routing.Recipients(policy, sender, request.scope, restrictions, s.memberships) <==>
        ListensIn(claims, PublicationRoom(sender, request.scope))
        && !Routing.IsRestricted(restrictions, player, request.sender)
  {
    var sender, m := Find(s, request.sender).value, Find(s, player).value;
    FindIsMembership(s, request.sender);
    FindIsMembership(s, player);
    Routing.RecipientsAreReceivers(policy, sender, request.scope, restrictions, s.memberships, player);
    Routing.ScopeIsNode(s.hierarchy, sender, m, request.scope);
    ListensExactly(VoiceGrants.Context(s, policy), claims, player, request.scope, ScopeNodeId(sender, request.scope));
  }

  /** A player whom no grant can be derived for, not being connected or not a member, is no recipient either. */
  lemma UngrantedHearNothing(s: Snapshot, policy: RolePolicy, request: Routing.Request,
                             restrictions: seq<Routing.Restriction>, player: Id)
    requires ValidSnapshot(s) && Routing.Obstacle(s, policy, request).None?
    requires Find(s, player).None? || !Find(s, player).value.connected
    ensures player !in Routing.Recipients(policy, Find(s, request.sender).value, request.scope, restrictions, s.memberships)
  {
    FindIsMembership(s, player);
    Routing.RecipientsAreReceivers(policy, Find(s, request.sender).value, request.scope, restrictions, s.memberships, player);
  }

  /**
   * The sender's own grants fit the acceptance of its request: the scope is open to it for transmitting, the room
   * it publishes in is one it has joined, and it subscribes there exactly when it may receive at that scope.
   */
  lemma SenderJoinsItsRoom(s: Snapshot, policy: RolePolicy, request: Routing.Request, claims: VoiceGrants.Claims)
    requires Routing.Obstacle(s, policy, request).None?
    requires VoiceGrants.ClaimsFor(VoiceGrants.Context(s, policy), claims, request.sender)
    ensures var sender := Find(s, request.sender).value;
      request.scope in claims.transmit && VoiceGrants.IsGrant(claims,
        VoiceGrants.RoomGrant(request.scope, PublicationRoom(sender, request.scope),
                              VoiceGrants.MayReceive(policy, sender, request.scope)))
  {
    ClaimsRoom(VoiceGrants.Context(s, policy), claims, request.sender, request.scope);
  }

  /** The whole server path: sessions, contexts, derivation, issue and resolution together. */
  method HearsOverServer(sessions: map<Id, VoiceGrants.Session>, context: VoiceGrants.Context, contexts: map<Id, VoiceGrants.Context>,
                         session: Id, device: Id, now: VoiceGrants.Time, lifetime: VoiceGrants.Time, request: Routing.Request)
    returns (recipient: bool, listens: bool)
    requires ValidSnapshot(context.snapshot)
    requires forall player <- contexts :: contexts[player] == context
    requires VoiceGrants.Obstacle(sessions, contexts, session, device, now).None?
    requires Routing.Obstacle(context.snapshot, context.policy, request).None?
    ensures recipient == listens
    ensures recipient <==> sessions[session].player in Routing.Recipients(
      context.policy, Find(context.snapshot, request.sender).value, request.scope, [], context.snapshot.memberships)
  {
    var player := sessions[session].player;
    var resolution := Routing.Resolve(context.snapshot, context.policy, request, []);
    recipient := player in resolution.recipients;
    var granted := VoiceGrants.Derive(sessions, contexts, session, device, now, lifetime);
    var grants := VoiceGrants.Issue(granted.claims);
    var room := PublicationRoom(Find(context.snapshot, request.sender).value, request.scope);
    listens := exists g :: g in grants && g.canSubscribe && g.room == room;
    assert listens <==> ListensIn(granted.claims, room) by {
      assert forall g :: g in grants <==> VoiceGrants.IsGrant(granted.claims, g);
    }
    WhoHears(context.snapshot, context.policy, request, [], granted.claims, player);
  }
}
