/**
 * What every sweep and every command of the control plane does, in terms of the stored transmissions, sessions and memberships
 * themselves: which transmissions go and which stay, and when a command is refused.
 */
module ControlPlaneLaws {
  import opened Basics
  import opened Domain
  import opened VoiceGrants
  import opened ControlPlaneStore
  import opened ControlPlaneRuns
  import Permissions
  import Routing

  // ---------------------------------------------------------------- what goes and what stays

  /** The transmission is left as it was, and nothing new is to be revoked or recorded about it. */
  ghost predicate Spared(s: State, s': State, id: Id) {
    && id in s.store.active && id in s'.store.active && s'.store.active[id] == s.store.active[id]
    && (forall k :: |s.revocations| <= k < |s'.revocations| ==> s'.revocations[k].transmission != s.store.active[id])
    && (forall k :: |s.pending| <= k < |s'.pending| ==>
          s'.pending[k].InterruptionRecorded? && s'.pending[k].ended.transmission != s.store.active[id])
  }

  /** The transmission is gone; its end, with its reason and time, is to be revoked and recorded. */
  ghost predicate Interrupted(s: State, s': State, id: Id, reason: StopReason, now: Time, operation: Operation) {
    && id in s.store.active && id !in s'.store.active
    && (exists k :: |s.revocations| <= k < |s'.revocations| && s'.revocations[k] == Ended(s.store.active[id], reason, now))
    && (exists k :: |s.pending| <= k < |s'.pending|
          && s'.pending[k] == InterruptionRecorded(Ended(s.store.active[id], reason, now), operation))
  }

  lemma ForcedAt(s: State, store: Store, order: seq<Id>, reason: StopReason, now: Time, operation: Operation, k: nat)
    requires (forall id <- order :: id in s.store.active) && k < |order|
    ensures var s' := Forced(s, store, order, reason, now, operation);
      && |s'.revocations| == |s.revocations| + |order| && |s'.pending| == |s.pending| + |order|
      && s'.revocations[|s.revocations| + k] == Ended(s.store.active[order[k]], reason, now)
      && s'.pending[|s.pending| + k] == InterruptionRecorded(Ended(s.store.active[order[k]], reason, now), operation)
  {}

  lemma ForcedTakes(s: State, store: Store, order: seq<Id>, reason: StopReason, now: Time, operation: Operation, id: Id)
    requires (forall i <- order :: i in s.store.active) && id in order && id !in store.active
    ensures Interrupted(s, Forced(s, store, order, reason, now, operation), id, reason, now, operation)
  {
    var k :| 0 <= k < |order| && order[k] == id;
    ForcedAt(s, store, order, reason, now, operation, k);
  }

  lemma ForcedSpares(s: State, store: Store, order: seq<Id>, reason: StopReason, now: Time, operation: Operation, id: Id)
    requires (forall i <- order :: i in s.store.active) && Keyed(s.store)
    requires id in s.store.active && id in store.active && store.active[id] == s.store.active[id] && id !in order
    ensures Spared(s, Forced(s, store, order, reason, now, operation), id)
  {
    var s' := Forced(s, store, order, reason, now, operation);
    forall k | |s.revocations| <= k < |s'.revocations| ensures s'.revocations[k].transmission != s.store.active[id] {
      ForcedAt(s, store, order, reason, now, operation, k - |s.revocations|);
    }
    forall k | |s.pending| <= k < |s'.pending|
      ensures s'.pending[k].InterruptionRecorded? && s'.pending[k].ended.transmission != s.store.active[id]
    {
      ForcedAt(s, store, order, reason, now, operation, k - |s.pending|);
    }
  }

  /** Expiry takes exactly what has lasted the maximum, and leaves nothing that old behind. */
  lemma ExpiryTakesTheOld(s: State, maximum: Time, now: Time, order: seq<Id>)
    requires Enabled(s, Expired(maximum, now, order)) && Inv(s.store)
    ensures var s' := Next(s, Expired(maximum, now, order));
      && s'.store.sessions == s.store.sessions && s'.store.contexts == s.store.contexts
      && (forall id <- s'.store.active :: now - s'.store.active[id].startedAt < maximum)
      && (forall id <- s.store.active ::
            if now - s.store.active[id].startedAt < maximum then Spared(s, s', id)
            else Interrupted(s, s', id, TimedOut, now, Timeout))
  {
    var e := Expired(maximum, now, order);
    forall id <- s.store.active
      ensures if now - s.store.active[id].startedAt < maximum then Spared(s, Next(s, e), id)
              else Interrupted(s, Next(s, e), id, TimedOut, now, Timeout)
    {
      OrdersSame(order, Gone(s, e), id);
      if now - s.store.active[id].startedAt < maximum { ForcedSpares(s, Without(s.store, Gone(s, e)), order, TimedOut, now, Timeout, id); }
      else { ForcedTakes(s, Without(s.store, Gone(s, e)), order, TimedOut, now, Timeout, id); }
    }
  }

  /** Removing a session takes exactly the transmissions started in it; an unknown session takes none. */
  lemma RemovedSessionTakesItsOwn(s: State, session: Id, now: Time, order: seq<Id>)
    requires Enabled(s, SessionRemoved(session, now, order)) && Inv(s.store)
    ensures var s' := Next(s, SessionRemoved(session, now, order));
      && s'.store.sessions == s.store.sessions - {session} && s'.store.contexts == s.store.contexts
      && (forall id <- s.store.active ::
            if s.store.active[id].session == session then Interrupted(s, s', id, Disconnected, now, SessionLifecycle)
            else Spared(s, s', id))
  {
    var e := SessionRemoved(session, now, order);
    var store := RemoveSessionSection(s.store, session);
    assert session !in s.store.sessions ==> s.store.sessions - {session} == s.store.sessions;
    forall id <- s.store.active
      ensures if s.store.active[id].session == session then Interrupted(s, Next(s, e), id, Disconnected, now, SessionLifecycle)
              else Spared(s, Next(s, e), id)
    {
      OrdersSame(order, Gone(s, e), id);
      if s.store.active[id].session == session { ForcedTakes(s, store, order, Disconnected, now, SessionLifecycle, id); }
      else { ForcedSpares(s, store, order, Disconnected, now, SessionLifecycle, id); }
    }
  }

  /** The snapshot has the player as a member, and is newer than the one stored for it. */
  ghost predicate Supersedes(s: Store, player: Id, context: Context) {
    && (exists m :: m in context.snapshot.memberships && m.player == player)
    && (player in s.contexts ==> s.contexts[player].snapshot.version < context.snapshot.version)
  }

  /** A membership update that is taken up takes exactly the player's transmissions, with the reason of the change; any other changes nothing. */
  lemma UpdateTakesThePlayers(s: State, player: Id, context: Context, now: Time, change: ContextChange, order: seq<Id>)
    requires Enabled(s, MembershipUpdated(player, context, now, change, order)) && Inv(s.store) && ValidSnapshot(context.snapshot)
    ensures var s' := Next(s, MembershipUpdated(player, context, now, change, order));
      && s'.store.sessions == s.store.sessions
      && if Supersedes(s.store, player, context)
         then s'.store.contexts == s.store.contexts[player := context]
           && forall id <- s.store.active ::
                if s.store.active[id].authorization.sender == player
                then Interrupted(s, s', id, if change == PermissionsChanged then PermissionRevoked else MembershipChanged, now, MembershipChange)
                else Spared(s, s', id)
         else s'.store == s.store && s'.revocations == s.revocations && s'.pending == s.pending
  {
    var e := MembershipUpdated(player, context, now, change, order);
    FindIsMembership(context.snapshot, player);
    if Supersedes(s.store, player, context) {
      var store := UpdateSection(s.store, player, context);
      var reason := if change == PermissionsChanged then PermissionRevoked else MembershipChanged;
      forall id <- s.store.active
        ensures if s.store.active[id].authorization.sender == player then Interrupted(s, Next(s, e), id, reason, now, MembershipChange)
                else Spared(s, Next(s, e), id)
      {
        OrdersSame(order, Gone(s, e), id);
        if s.store.active[id].authorization.sender == player { ForcedTakes(s, store, order, reason, now, MembershipChange, id); }
        else { ForcedSpares(s, store, order, reason, now, MembershipChange, id); }
      }
    } else {
      NothingOrdered(order);
    }
  }

  lemma NothingOrdered(order: seq<Id>)
    requires Orders(order, {})
    ensures order == []
  {
    if order != [] { OrdersSame(order, {}, order[0]); }
  }

  /** Removing a membership takes exactly the player's transmissions. */
  lemma RemovedMembershipTakesThePlayers(s: State, player: Id, now: Time, order: seq<Id>)
    requires Enabled(s, MembershipRemoved(player, now, order)) && Inv(s.store)
    ensures var s' := Next(s, MembershipRemoved(player, now, order));
      && s'.store.sessions == s.store.sessions && s'.store.contexts == s.store.contexts - {player}
      && (forall id <- s.store.active ::
            if s.store.active[id].authorization.sender == player then Interrupted(s, s', id, MembershipChanged, now, MembershipChange)
            else Spared(s, s', id))
  {
    var e := MembershipRemoved(player, now, order);
    var store := RemoveMembershipSection(s.store, player);
    forall id <- s.store.active
      ensures if s.store.active[id].authorization.sender == player then Interrupted(s, Next(s, e), id, MembershipChanged, now, MembershipChange)
              else Spared(s, Next(s, e), id)
    {
      OrdersSame(order, Gone(s, e), id);
      if s.store.active[id].authorization.sender == player { ForcedTakes(s, store, order, MembershipChanged, now, MembershipChange, id); }
      else { ForcedSpares(s, store, order, MembershipChanged, now, MembershipChange, id); }
    }
  }

  // ---------------------------------------------------------------- starting a transmission

  /** Every stored membership snapshot is a valid one. */
  ghost predicate ValidContexts(store: Store) { forall player <- store.contexts :: ValidSnapshot(store.contexts[player].snapshot) }

  /** The session is the sender's, on its device, and has not run out. */
  predicate SessionStands(store: Store, player: Id, session: Id, device: Id, now: Time) {
    && session in store.sessions
    && store.sessions[session].player == player && store.sessions[session].device == device && now < store.sessions[session].expiresAt
  }

  /** `m` is the player's membership in its stored snapshot of this version, whose hierarchy has the scope with this definition. */
  ghost predicate MembershipStands(store: Store, player: Id, version: nat, scope: VoiceScope, m: Membership, d: ScopeDefinition) {
    && player in store.contexts && store.contexts[player].snapshot.version == version
    && m in store.contexts[player].snapshot.memberships && m.player == player
    && d in store.contexts[player].snapshot.hierarchy.scopes && d.scope == scope
  }

  /** The active transmissions in the member's team, specialization or group, as the scope says. */
  function AtNode(store: Store, m: Membership, scope: VoiceScope): set<Id> {
    set id | id in store.active && store.active[id].authorization.scope == scope && store.active[id].node ==
      (match scope case Team => m.teamId case Specialization => m.specializationId case Group => m.groupId)
  }

  lemma {:induction false} ScopeIsFound(scopes: seq<ScopeDefinition>, d: ScopeDefinition)
    requires d in scopes && forall i, j :: 0 <= i < j < |scopes| ==> scopes[i].scope != scopes[j].scope
    ensures FindScope(scopes, d.scope) == Some(d)
  {
    if scopes[0] != d {
      var i :| 0 < i < |scopes| && scopes[i] == d;
      assert scopes[1..][i - 1] == d;
      ScopeIsFound(scopes[1..], d);
    }
  }

  lemma {:induction false} FoundScopeIsListed(scopes: seq<ScopeDefinition>, scope: VoiceScope)
    ensures FindScope(scopes, scope).Some? ==> FindScope(scopes, scope).value in scopes && FindScope(scopes, scope).value.scope == scope
  {
    if scopes != [] { FoundScopeIsListed(scopes[1..], scope); }
  }

  /** A start is stopped by a session that does not stand; by a membership that does not stand. */
  lemma ActivationNeedsStanding(store: Store, t: Authorized, session: Id, device: Id, now: Time)
    requires ValidContexts(store)
    ensures var obstacle := ActivationObstacle(store, t, session, device, now);
      && (obstacle == Some(SessionChanged) <==> !SessionStands(store, t.sender, session, device, now))
      && (obstacle == Some(MembershipChangedDuringStart) <==>
            (SessionStands(store, t.sender, session, device, now)
             && !exists m, d :: MembershipStands(store, t.sender, t.membershipVersion, t.scope, m, d)))
  {
    if t.sender in store.contexts {
      var snapshot := store.contexts[t.sender].snapshot;
      FindIsMembership(snapshot, t.sender);
      FoundScopeIsListed(snapshot.hierarchy.scopes, t.scope);
      if Find(snapshot, t.sender).Some? && FindScope(snapshot.hierarchy.scopes, t.scope).Some? && snapshot.version == t.membershipVersion {
        assert MembershipStands(store, t.sender, t.membershipVersion, t.scope, Find(snapshot, t.sender).value,
                                FindScope(snapshot.hierarchy.scopes, t.scope).value);
      }
      forall m, d | MembershipStands(store, t.sender, t.membershipVersion, t.scope, m, d)
        ensures Find(snapshot, t.sender).Some? && FindScope(snapshot.hierarchy.scopes, t.scope).Some?
      {
        ScopeIsFound(snapshot.hierarchy.scopes, d);
      }
    }
  }

  /** Where both stand: by a full node; then by another transmission of the sender; then by its id; by nothing else. */
  lemma ActivationIsJudged(store: Store, t: Authorized, session: Id, device: Id, now: Time, m: Membership, d: ScopeDefinition)
    requires Inv(store) && ValidContexts(store) && SessionStands(store, t.sender, session, device, now)
    requires MembershipStands(store, t.sender, t.membershipVersion, t.scope, m, d)
    ensures ActivationObstacle(store, t, session, device, now) ==
      if d.maxSpeakers.Some? && |AtNode(store, m, t.scope)| >= d.maxSpeakers.value then Some(SpeakerLimitReached)
      else if exists id :: id in store.active && store.active[id].authorization.sender == t.sender then Some(SenderAlreadyTransmitting)
      else if t.id in store.active then Some(TransmissionIdConflict)
      else None
    ensures ActivationObstacle(store, t, session, device, now).None? ==>
      var a := ActiveFor(store, t, session, device, now);
      && a.authorization == t && a.session == session && a.device == device && a.startedAt == now
      && a.node == (match t.scope case Team => m.teamId case Specialization => m.specializationId case Group => m.groupId)
      && (a.canSubscribe <==> m.canReceive && Permissions.ListedToReceive(store.contexts[t.sender].policy, m, t.scope))
  {
    var context := store.contexts[t.sender];
    FindIsMembership(context.snapshot, t.sender);
    ScopeIsFound(context.snapshot.hierarchy.scopes, d);
    SpeakersBesideAreSpeakers(store, m, t.scope);
    assert Speakers(store, t.scope, ScopeNodeId(m, t.scope)) == AtNode(store, m, t.scope);
    ReceiveIsListed(context.policy, m.roles, t.scope);
  }

  /** What an activation stores: just that transmission, if nothing stops it and the voice service grants the publication. */
  lemma ActivationStores(store: Store, t: Authorized, session: Id, device: Id, now: Time, granted: bool)
    ensures var (after, r) := ActivateSection(store, t, session, device, now, granted);
      && after.sessions == store.sessions && after.contexts == store.contexts
      && (ActivationObstacle(store, t, session, device, now).Some? ==>
            r == NotActivated(ActivationObstacle(store, t, session, device, now).value))
      && (ActivationObstacle(store, t, session, device, now).None? ==>
            if granted then r == Activated(ActiveFor(store, t, session, device, now)) else r == NotActivated(VoiceControlFailed))
      && (r.Activated? ==> after.active == store.active[t.id := r.transmission])
      && (r.NotActivated? ==> after.active == store.active)
  {}

  // ---------------------------------------------------------------- the steps of a command

  predicate IsRefused(s: State, s': State, n: nat) {
    && n in s.calls && n in s'.calls && s'.calls[n].progress == Rejected
    && s'.store == s.store && |s'.pending| == |s.pending| + 1 && s'.pending[|s.pending|].RejectionRecorded?
  }

  /** The command's session is known, bound to the command's device, and has not run out. */
  predicate Admits(store: Store, c: Command) {
    c.session in store.sessions && store.sessions[c.session].device == c.device && c.now < store.sessions[c.session].expiresAt
  }

  /** A command without a standing session is refused; any other goes on as its session's player, to be limited or judged first. */
  lemma CommandNeedsSession(s: State, n: nat, choice: Choice)
    requires Enabled(s, Stepped(n, choice)) && s.calls[n].progress in {Finding, Authorizing}
    ensures var c, s' := s.calls[n].command, Next(s, Stepped(n, choice));
      if Admits(s.store, c)
      then s' == Move(s, n, if s.calls[n].progress == Authorizing then Resolving(s.store.sessions[c.session].player)
                            else if c.what.Moderate? then Judging(s.store.sessions[c.session].player)
                            else Limiting(s.store.sessions[c.session].player))
      else IsRefused(s, s', n)
  {}

  /** The limiter's and the moderation's verdict decide. */
  lemma CommandNeedsVerdict(s: State, n: nat, choice: Choice)
    requires Enabled(s, Stepped(n, choice)) && (s.calls[n].progress.Limiting? || s.calls[n].progress.Judging?)
    ensures var s' := Next(s, Stepped(n, choice));
      if choice.good then s' == Move(s, n, if s.calls[n].command.what.Start? then Authorizing else Halting) else IsRefused(s, s', n)
  {}

  /** A start goes on exactly with a stored membership by which its player may speak in the scope at the version it names. */
  lemma StartIsResolved(s: State, n: nat, choice: Choice)
    requires Enabled(s, Stepped(n, choice)) && s.calls[n].progress.Resolving? && ValidContexts(s.store)
    ensures var what, player, s' := s.calls[n].command.what, s.calls[n].progress.player, Next(s, Stepped(n, choice));
      var contexts := s.store.contexts;
      if player in contexts && what.membershipVersion == contexts[player].snapshot.version
         && exists m :: m in contexts[player].snapshot.memberships && m.player == player
              && m.connected && !m.transmitMuted && m.ban == NotBanned
              && Permissions.InActiveGroup(contexts[player].snapshot.hierarchy, m)
              && Permissions.HasScope(contexts[player].snapshot.hierarchy, what.scope)
              && Permissions.ListedToTransmit(contexts[player].policy, m, what.scope)
      then
        && n in s'.calls && s'.calls[n].progress.Activating? && s'.store == s.store
        && var t := s'.calls[n].progress.t;
           && t.id == choice.id && t.clientId == what.clientId && t.sender == player
           && t.scope == what.scope && t.membershipVersion == what.membershipVersion
      else IsRefused(s, s', n)
  {
    var what, player := s.calls[n].command.what, s.calls[n].progress.player;
    if player in s.store.contexts {
      var context := s.store.contexts[player];
      Permissions.AcceptedExactly(context.snapshot, context.policy, Routing.Request(player, what.scope, what.membershipVersion));
    }
  }

  lemma ResolvedRecipients(s: State, n: nat, choice: Choice)
    requires Enabled(s, Stepped(n, choice)) && s.calls[n].progress.Resolving?
    requires Next(s, Stepped(n, choice)).calls[n].progress.Activating?
    ensures var what, player := s.calls[n].command.what, s.calls[n].progress.player;
      && player in s.store.contexts && Find(s.store.contexts[player].snapshot, player).Some?
      && Next(s, Stepped(n, choice)).calls[n].progress.t.recipients ==
           Routing.Recipients(s.store.contexts[player].policy, Find(s.store.contexts[player].snapshot, player).value, what.scope, [],
                              s.store.contexts[player].snapshot.memberships)
  {}

  /** And it addresses exactly the connected members beside the sender that some role lets receive there. */
  lemma StartAddressesReceivers(s: State, n: nat, choice: Choice, m: Membership, player: Id)
    requires Enabled(s, Stepped(n, choice)) && s.calls[n].progress.Resolving? && ValidContexts(s.store)
    requires Next(s, Stepped(n, choice)).calls[n].progress.Activating?
    requires s.calls[n].progress.player in s.store.contexts
    requires m in s.store.contexts[s.calls[n].progress.player].snapshot.memberships && m.player == s.calls[n].progress.player
    ensures var what, context := s.calls[n].command.what, s.store.contexts[s.calls[n].progress.player];
      player in Next(s, Stepped(n, choice)).calls[n].progress.t.recipients <==>
        exists other :: other in context.snapshot.memberships && other.player == player
          && other.connected && other.canReceive && Permissions.Together(m, other, what.scope)
          && Permissions.ListedToReceive(context.policy, other, what.scope)
  {
    var context := s.store.contexts[m.player];
    FindIsMembership(context.snapshot, m.player);
    ResolvedRecipients(s, n, choice);
    Permissions.RecipientExactly(context.snapshot, context.policy, m, s.calls[n].command.what.scope, [], player);
  }

  /** An end is accepted only from the session and device that started the transmission; a moderation for any active one. */
  lemma HaltIsJudged(s: State, n: nat, choice: Choice)
    requires Enabled(s, Stepped(n, choice)) && s.calls[n].progress == Halting
    ensures var c, s' := s.calls[n].command, Next(s, Stepped(n, choice));
      var id := c.what.id;
      if id in s.store.active && (c.what.End? ==> s.store.active[id].session == c.session && s.store.active[id].device == c.device)
      then
        && n in s'.calls && s'.calls[n].progress == Accepted
        && s'.store == s.store.(active := s.store.active - {id})
        && s'.rights == s.rights - {RightOf(s.store.active[id])}
        && s'.pending == s.pending + [if c.what.End? then EndRecorded(Ended(s.store.active[id], PushToTalkReleased, c.now))
             else InterruptionRecorded(Ended(s.store.active[id], ModerationInterrupted, c.now), Moderation)]
      else IsRefused(s, s', n)
  {}

  /** A granted publication is the right to the room of the sender's node, under the sender's name. */
  lemma RightNamesTheNode(a: Active)
    ensures RightOf(a).player == a.authorization.sender
    ensures RightOf(a).room ==
      match a.authorization.scope { case Team => "team:" + a.node case Specialization => "specialization:" + a.node case Group => "group:" + a.node }
  {}
}
