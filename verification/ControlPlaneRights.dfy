/** Who may publish: the voice service's permissions against the store's active transmissions, over whole runs. */
module ControlPlaneRights {
  import opened Basics
  import opened Domain
  import opened VoiceGrants
  import opened ControlPlaneStore
  import opened ControlPlaneRuns
  import WhoHears

  ghost predicate Transmitting(s: State, right: Right) {
    exists id :: id in s.store.active && RightOf(s.store.active[id]) == right
  }

  /** A permission stands for an active transmission or is about to be revoked. */
  ghost predicate Safe(s: State) {
    forall right <- s.rights :: Transmitting(s, right) || Shadows(s.revocations, right)
  }

  /** A transmission has its right, with nothing about to take it away. */
  ghost predicate HasRight(s: State, right: Right) { right in s.rights && !Shadows(s.revocations, right) }

  /** A transmission has its right for good exactly if no revocation of the same right was outstanding when it began. */
  ghost predicate Stands(s: State, id: Id) {
    id in s.store.active ==> (id !in s.shadowed <==> HasRight(s, RightOf(s.store.active[id])))
  }

  ghost predicate AllStand(s: State) {
    (forall id <- s.store.active :: Stands(s, id)) && s.shadowed <= s.begun
  }

  lemma ShadowsMore(revocations: seq<Ended>, more: seq<Ended>, right: Right)
    ensures Shadows(revocations + more, right) <==> Shadows(revocations, right) || Shadows(more, right)
  {
    if Shadows(revocations, right) {
      var e :| e in revocations && RightOf(e.transmission) == right;
      assert e in revocations + more;
    }
    if Shadows(more, right) {
      var e :| e in more && RightOf(e.transmission) == right;
      assert e in revocations + more;
    }
  }

  /** Whatever a forced end takes away is listed for revocation. */
  lemma ForcedSafe(s: State, s': State, order: seq<Id>, gone: set<Id>, reason: StopReason, now: Time, operation: Operation)
    requires Safe(s) && Listed(s, order) && Orders(order, gone)
    requires s' == Forced(s, s'.store, order, reason, now, operation) && s'.store.active == s.store.active - gone
    ensures Safe(s')
  {
    var ended := EndsOf(s.store.active, order, reason, now);
    forall right <- s'.rights ensures Transmitting(s', right) || Shadows(s'.revocations, right) {
      ShadowsMore(s.revocations, ended, right);
      if Transmitting(s, right) {
        var id :| id in s.store.active && RightOf(s.store.active[id]) == right;
        OrdersSame(order, gone, id);
        if id in gone {
          var i :| 0 <= i < |order| && order[i] == id;
          assert ended[i] in ended && RightOf(ended[i].transmission) == right;
        } else {
          assert id in s'.store.active;
        }
      }
    }
  }

  lemma ForcedStands(s: State, s': State, order: seq<Id>, gone: set<Id>, reason: StopReason, now: Time, operation: Operation)
    requires AllStand(s) && OnePerSender(s.store) && Listed(s, order) && Orders(order, gone)
    requires s' == Forced(s, s'.store, order, reason, now, operation) && s'.store.active == s.store.active - gone
    ensures AllStand(s')
  {
    var ended := EndsOf(s.store.active, order, reason, now);
    forall id <- s'.store.active ensures Stands(s', id) {
      assert Stands(s, id) && id !in gone;
      ShadowsMore(s.revocations, ended, RightOf(s.store.active[id]));
      forall e <- ended ensures RightOf(e.transmission) != RightOf(s.store.active[id]) {
        var i :| 0 <= i < |ended| && ended[i] == e;
        OrdersSame(order, gone, order[i]);
      }
    }
  }

  lemma RevokedSafe(s: State, i: nat)
    requires Safe(s) && i < |s.revocations|
    ensures Safe(Next(s, Revoked(i)))
  {
    var s' := Next(s, Revoked(i));
    assert s.revocations == s.revocations[..i] + [s.revocations[i]] + s.revocations[i + 1..];
    forall right <- s'.rights ensures Transmitting(s', right) || Shadows(s'.revocations, right) {
      if Shadows(s.revocations, right) {
        var e :| e in s.revocations && RightOf(e.transmission) == right;
        assert e != s.revocations[i];
        assert e in s'.revocations;
      }
    }
  }

  /** A revocation takes its right away; of any other right it leaves what there is. */
  lemma RevokedStands(s: State, i: nat)
    requires AllStand(s) && i < |s.revocations|
    ensures AllStand(Next(s, Revoked(i)))
  {
    var s' := Next(s, Revoked(i));
    forall id <- s'.store.active ensures Stands(s', id) {
      assert Stands(s, id);
      OneFewerShadow(s.revocations, i, RightOf(s.store.active[id]));
    }
  }

  lemma OneFewerShadow(revocations: seq<Ended>, i: nat, right: Right)
    requires i < |revocations|
    ensures Shadows(revocations, right) <==>
      Shadows(revocations[..i] + revocations[i + 1..], right) || RightOf(revocations[i].transmission) == right
  {
    ShadowsMore(revocations[..i], revocations[i + 1..], right);
    ShadowsMore(revocations[..i], revocations[i..], right);
    ShadowsMore([revocations[i]], revocations[i + 1..], right);
    assert revocations == revocations[..i] + revocations[i..] && revocations[i..] == [revocations[i]] + revocations[i + 1..];
    assert RightOf(revocations[i].transmission) == right ==> revocations[i] in [revocations[i]];
  }

  lemma HaltSafe(s: State, n: nat, gone: Id, event: AuditEvent)
    requires Safe(s) && n in s.calls && gone in s.store.active
    ensures Safe(Halt(s, n, gone, event))
  {
    var s' := Halt(s, n, gone, event);
    forall right <- s'.rights ensures Transmitting(s', right) || Shadows(s'.revocations, right) {
      if Transmitting(s, right) {
        var id :| id in s.store.active && RightOf(s.store.active[id]) == right;
        assert id in s'.store.active;
      }
    }
  }

  lemma HaltStands(s: State, n: nat, gone: Id, event: AuditEvent)
    requires AllStand(s) && OnePerSender(s.store) && n in s.calls && gone in s.store.active
    ensures AllStand(Halt(s, n, gone, event))
  {
    var s' := Halt(s, n, gone, event);
    forall id <- s'.store.active ensures Stands(s', id) { assert Stands(s, id) && id != gone; }
  }

  lemma ActivatingSafe(s: State, n: nat, t: Authorized, granted: bool)
    requires Safe(s) && n in s.calls
    ensures Safe(ActivatingStep(s, n, t, granted))
  {
    var s' := ActivatingStep(s, n, t, granted);
    var command := s.calls[n].command;
    var r := ActivateSection(s.store, t, command.session, command.device, command.now, granted).1;
    if r.Activated? {
      forall right <- s'.rights ensures Transmitting(s', right) || Shadows(s'.revocations, right) {
        if right == RightOf(r.transmission) {
          assert t.id in s'.store.active;
        } else if Transmitting(s, right) {
          var id :| id in s.store.active && RightOf(s.store.active[id]) == right;
          assert id in s'.store.active;
        }
      }
    }
  }

  lemma ActivatingStands(s: State, n: nat, t: Authorized, granted: bool)
    requires AllStand(s) && n in s.calls && t.id !in s.begun
    ensures AllStand(ActivatingStep(s, n, t, granted))
  {
    var s' := ActivatingStep(s, n, t, granted);
    forall id <- s'.store.active ensures Stands(s', id) {
      if id in s.store.active && id != t.id {
        assert Stands(s, id);
        assert s.store.active[id].authorization.sender == t.sender ==> Transmits(s.store, t.sender);
      }
    }
  }

  ghost predicate RightsFit(s: State) { Safe(s) && AllStand(s) }

  lemma CallRightsNext(s: State, n: nat, choice: Choice)
    requires OnePerSender(s.store) && Fresh(s) && RightsFit(s) && Enabled(s, Stepped(n, choice))
    ensures RightsFit(CallStep(s, n, choice))
  {
    match s.calls[n].progress
    case Activating(t) =>
      ActivatingSafe(s, n, t, choice.good);
      ActivatingStands(s, n, t, choice.good);
    case Halting =>
      var command := s.calls[n].command;
      var gone := command.what.id;
      if gone in s.store.active {
        var event := if command.what.End? then EndRecorded(Ended(s.store.active[gone], PushToTalkReleased, command.now))
                     else InterruptionRecorded(Ended(s.store.active[gone], ModerationInterrupted, command.now), Moderation);
        HaltSafe(s, n, gone, event);
        HaltStands(s, n, gone, event);
      }
      SameRights(s, Refuse(s, n));
    case _ => SameRights(s, CallStep(s, n, choice));
  }

  lemma SameRights(s: State, s': State)
    requires RightsFit(s)
    requires s'.store.active == s.store.active && s'.rights == s.rights
    requires s'.revocations == s.revocations && s'.shadowed == s.shadowed && s'.begun == s.begun
    ensures RightsFit(s')
  {
    forall id <- s'.store.active ensures Stands(s', id) { assert Stands(s, id); }
    forall right <- s'.rights ensures Transmitting(s', right) || Shadows(s'.revocations, right) {
      assert Transmitting(s, right) ==> Transmitting(s', right);
    }
  }

  lemma ForcedRights(s: State, e: Event, order: seq<Id>, reason: StopReason, now: Time, operation: Operation)
    requires OnePerSender(s.store) && RightsFit(s) && Enabled(s, e) && Listed(s, order) && Orders(order, Gone(s, e))
    requires Next(s, e) == Forced(s, Next(s, e).store, order, reason, now, operation)
    requires Next(s, e).store.active == s.store.active - Gone(s, e)
    ensures RightsFit(Next(s, e))
  {
    ForcedSafe(s, Next(s, e), order, Gone(s, e), reason, now, operation);
    ForcedStands(s, Next(s, e), order, Gone(s, e), reason, now, operation);
  }

  lemma RightsNext(s: State, e: Event)
    requires OnePerSender(s.store) && Fresh(s) && RightsFit(s) && Enabled(s, e)
    ensures RightsFit(Next(s, e))
  {
    match e
    case Stepped(n, choice) => CallRightsNext(s, n, choice);
    case Expired(_, now, order) =>
      ForcedStore(s, e);
      ForcedRights(s, e, order, TimedOut, now, Timeout);
    case SessionRemoved(_, now, order) =>
      ForcedStore(s, e);
      ForcedRights(s, e, order, Disconnected, now, SessionLifecycle);
    case MembershipUpdated(_, _, now, change, order) =>
      ForcedStore(s, e);
      ForcedRights(s, e, order, ReasonFor(change), now, MembershipChange);
    case MembershipRemoved(_, now, order) =>
      ForcedStore(s, e);
      ForcedRights(s, e, order, MembershipChanged, now, MembershipChange);
    case Revoked(i) =>
      RevokedSafe(s, i);
      RevokedStands(s, i);
    case _ => SameRights(s, Next(s, e));
  }

  lemma {:induction false} RightsRun(s: State, events: seq<Event>)
    requires Inv(s.store) && Fresh(s) && RightsFit(s) && CanRun(s, events)
    ensures RightsFit(Run(s, events))
    decreases |events|
  {
    if events != [] {
      RightsNext(s, events[0]);
      StoreNext(s, events[0]);
      FreshNext(s, events[0]);
      RightsRun(Next(s, events[0]), events[1..]);
    }
  }

  /**
   * In every run, a player may publish in a room only if it has an active transmission addressing the room's node, or the
   * revocation of one that ended is still to come.  The transmission is current: it was authorised for the sender's present
   * membership version, and the room is the one in which that membership's recipients listen.
   */
  lemma PublishesOnlyWhileActive(s: State, events: seq<Event>, right: Right)
    requires Init(s) && CanRun(s, events) && right in Run(s, events).rights
    ensures var end := Run(s, events);
      Shadows(end.revocations, right) || exists id :: id in end.store.active && PublishesCurrently(end.store, id, right)
  {
    StoreRun(s, events);
    RightsRun(s, events);
    var end := Run(s, events);
    if !Shadows(end.revocations, right) {
      assert Transmitting(end, right);
      var id :| id in end.store.active && RightOf(end.store.active[id]) == right;
      assert Current(end.store.contexts, end.store.active[id]);
      assert PublishesCurrently(end.store, id, right);
    }
  }

  ghost predicate PublishesCurrently(store: Store, id: Id, right: Right)
    requires id in store.active
  {
    var t := store.active[id].authorization;
    && t.sender == right.player && t.sender in store.contexts
    && store.contexts[t.sender].snapshot.version == t.membershipVersion
    && var member := Find(store.contexts[t.sender].snapshot, t.sender);
       member.Some? && right.room == WhoHears.PublicationRoom(member.value, t.scope)
  }

  /**
   * In every run, an active transmission may publish, with nothing about to stop it, exactly if no revocation of the same
   * right was still to come when it began.
   */
  lemma ActiveMayPublish(s: State, events: seq<Event>, id: Id)
    requires Init(s) && CanRun(s, events) && id in Run(s, events).store.active
    ensures var end := Run(s, events);
      id !in end.shadowed <==>
        RightOf(end.store.active[id]) in end.rights && !Shadows(end.revocations, RightOf(end.store.active[id]))
  {
    RightsRun(s, events);
    assert Stands(Run(s, events), id);
  }

  /** `shadowed` tells just that: it is decided when a transmission begins, and never changes afterwards. */
  lemma ShadowedAtStart(s: State, e: Event, id: Id)
    requires Fresh(s) && RightsFit(s) && Enabled(s, e) && id in Next(s, e).begun
    ensures id in s.begun ==> (id in Next(s, e).shadowed <==> id in s.shadowed)
    ensures id !in s.begun ==> id in Next(s, e).store.active && BeganShadowed(s, Next(s, e), id)
  {
    if e.Stepped? && s.calls[e.n].progress.Activating? {
      ActivatingShadow(s, e.n, s.calls[e.n].progress.t, e.choice.good, id);
    }
  }

  ghost predicate BeganShadowed(s: State, s': State, id: Id)
    requires id in s'.store.active
  {
    id in s'.shadowed <==> Shadows(s.revocations, RightOf(s'.store.active[id]))
  }

  lemma ActivatingShadow(s: State, n: nat, t: Authorized, granted: bool, id: Id)
    requires n in s.calls && t.id !in s.begun && s.shadowed <= s.begun && id in ActivatingStep(s, n, t, granted).begun
    ensures var s' := ActivatingStep(s, n, t, granted);
      && (id in s.begun ==> (id in s'.shadowed <==> id in s.shadowed))
      && (id !in s.begun ==> id in s'.store.active && BeganShadowed(s, s', id))
  {}

  /** A transmission that began too early has lost its right, or a revocation that is still to come takes it. */
  lemma StaleRevocationSilences(s: State, events: seq<Event>, id: Id)
    requires Init(s) && CanRun(s, events)
    requires id in Run(s, events).store.active && id in Run(s, events).shadowed
    requires RightOf(Run(s, events).store.active[id]) in Run(s, events).rights
    ensures var end := Run(s, events);
      exists i :: Enabled(end, Revoked(i)) && id in Next(end, Revoked(i)).store.active
        && RightOf(end.store.active[id]) !in Next(end, Revoked(i)).rights
  {
    var end := Run(s, events);
    ActiveMayPublish(s, events, id);
    var e :| e in end.revocations && RightOf(e.transmission) == RightOf(end.store.active[id]);
    var i :| 0 <= i < |end.revocations| && end.revocations[i] == e;
    assert Enabled(end, Revoked(i));
  }

  /** With every revocation done, every right is that of an active transmission. */
  lemma QuietRightsAreActive(s: State, events: seq<Event>, right: Right)
    requires Init(s) && CanRun(s, events) && Run(s, events).revocations == []
    ensures right in Run(s, events).rights ==> Transmitting(Run(s, events), right)
  {
    RightsRun(s, events);
    assert Safe(Run(s, events));
  }

  // ---------------------------------------------------------------- the speaker limit over runs

  /** Every membership context that is ever stored carries these limits or smaller ones. */
  ghost predicate KeepsLimits(events: seq<Event>, limits: Limits) {
    forall e <- events :: e.MembershipUpdated? ==> AtMost(e.context, limits)
  }

  /** Every step but an activation only takes transmissions away. */
  lemma OthersOnlyRemove(s: State, e: Event)
    requires Enabled(s, e) && !(e.Stepped? && s.calls[e.n].progress.Activating?)
    ensures forall id <- Next(s, e).store.active :: id in s.store.active && Next(s, e).store.active[id] == s.store.active[id]
  {}

  lemma ContextsNext(s: State, e: Event, limits: Limits)
    requires Enabled(s, e) && AllAtMost(s.store, limits) && (e.MembershipUpdated? ==> AtMost(e.context, limits))
    ensures AllAtMost(Next(s, e).store, limits)
  {
    var contexts := Next(s, e).store.contexts;
    forall player <- contexts ensures AtMost(contexts[player], limits) {
      assert player in s.store.contexts ==> AtMost(s.store.contexts[player], limits);
    }
  }

  lemma LimitsNext(s: State, e: Event, limits: Limits)
    requires Inv(s.store) && Enabled(s, e) && AllAtMost(s.store, limits) && Within(s.store, limits)
    ensures Within(Next(s, e).store, limits)
  {
    if e.Stepped? && s.calls[e.n].progress.Activating? {
      ActivatingWithin(s, e.n, e.choice, limits);
    } else {
      OthersOnlyRemove(s, e);
      FewerKeepWithin(s.store, Next(s, e).store, limits);
    }
  }

  lemma ActivatingWithin(s: State, n: nat, choice: Choice, limits: Limits)
    requires Inv(s.store) && AllAtMost(s.store, limits) && Within(s.store, limits)
    requires n in s.calls && WellPlaced(s.calls[n]) && s.calls[n].progress.Activating?
    ensures Within(CallStep(s, n, choice).store, limits)
  {
    var command := s.calls[n].command;
    ActivateKeepsWithin(s.store, s.calls[n].progress.t, command.session, command.device, command.now, choice.good, limits);
  }

  /** With no context allowing more than these limits, no node ever has more speakers than they allow. */
  lemma {:induction false} SpeakerLimitHolds(s: State, events: seq<Event>, limits: Limits)
    requires Inv(s.store) && Fresh(s) && CanRun(s, events)
    requires AllAtMost(s.store, limits) && Within(s.store, limits) && KeepsLimits(events, limits)
    ensures Within(Run(s, events).store, limits)
    decreases |events|
  {
    if events != [] {
      LimitsNext(s, events[0], limits);
      ContextsNext(s, events[0], limits);
      StoreNext(s, events[0]);
      FreshNext(s, events[0]);
      assert forall e <- events[1..] :: e in events;
      SpeakerLimitHolds(Next(s, events[0]), events[1..], limits);
    }
  }
}
