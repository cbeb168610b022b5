/**
 * The control plane's store: sessions, membership contexts and active transmissions under one lock.
 * Each locked section is a function of the store's value; class `InMemoryStore` performs it on its fields.
 */
module ControlPlaneStore {
  import opened Basics
  import opened Domain
  import opened VoiceGrants

  datatype Authorized = Authorized(
    id: Id, clientId: Id, sender: Id, scope: VoiceScope, membershipVersion: nat, recipients: seq<Id>)

  datatype Active = Active(
    authorization: Authorized, session: Id, device: Id, startedAt: Time, node: Id, canSubscribe: bool)

  datatype StopReason =
    | PushToTalkReleased | MembershipChanged | PermissionRevoked | TimedOut | ModerationInterrupted | Disconnected

  datatype Ended = Ended(transmission: Active, reason: StopReason, at: Time)

  datatype ActivationError =
    | SessionChanged | MembershipChangedDuringStart | SenderAlreadyTransmitting | SpeakerLimitReached
    | VoiceControlFailed | TransmissionIdConflict

  datatype Activation = Activated(transmission: Active) | NotActivated(error: ActivationError)
  datatype EndError = TransmissionNotFound | TransmissionNotOwned
  datatype EndResult = Stopped(transmission: Ended) | NotStopped(error: EndError)
  datatype UpdateError = PlayerNotInSnapshot | VersionNotNewer
  datatype UpdateResult = Updated(interrupted: seq<Ended>) | NotUpdated(error: UpdateError)
  datatype ContextChange = PlacementChanged | PermissionsChanged

  datatype Store = Store(sessions: map<Id, Session>, contexts: map<Id, Context>, active: map<Id, Active>)

  // ---------------------------------------------------------------- locked sections

  /** The active transmissions at a scope whose senders' current memberships lie at a member's node. */
  function SpeakersBeside(s: Store, member: Membership, scope: VoiceScope): set<Id> {
    set id | id in s.active && SpeaksBeside(s, member, scope, s.active[id])
  }

  predicate SpeaksBeside(s: Store, member: Membership, scope: VoiceScope, a: Active) {
    && a.authorization.scope == scope
    && a.authorization.sender in s.contexts
    && var other := Find(s.contexts[a.authorization.sender].snapshot, a.authorization.sender);
       other.Some? && ScopeNodeId(member, scope) == ScopeNodeId(other.value, scope)
  }

  predicate Transmits(s: Store, player: Id) { exists id <- s.active :: s.active[id].authorization.sender == player }

  /** What the activation of an authorized transmission runs into first, before the voice service is asked. */
  function ActivationObstacle(s: Store, t: Authorized, session: Id, device: Id, now: Time): Option<ActivationError> {
    if session !in s.sessions || s.sessions[session].player != t.sender || s.sessions[session].device != device
       || !ActiveAt(s.sessions[session], now)
    then Some(SessionChanged)
    else if t.sender !in s.contexts || s.contexts[t.sender].snapshot.version != t.membershipVersion
    then Some(MembershipChangedDuringStart)
    else
      var member := Find(s.contexts[t.sender].snapshot, t.sender);
      var definition := FindScope(s.contexts[t.sender].snapshot.hierarchy.scopes, t.scope);
      if member.None? || definition.None? then Some(MembershipChangedDuringStart)
      else if definition.value.maxSpeakers.Some?
        && |SpeakersBeside(s, member.value, t.scope)| >= definition.value.maxSpeakers.value
      then Some(SpeakerLimitReached)
      else if Transmits(s, t.sender) then Some(SenderAlreadyTransmitting)
      else if t.id in s.active then Some(TransmissionIdConflict)
      else None
  }

  /** The transmission an unobstructed activation stores: it addresses the sender's node at that moment. */
  function ActiveFor(s: Store, t: Authorized, session: Id, device: Id, now: Time): Active
    requires ActivationObstacle(s, t, session, device, now).None?
  {
    var context := s.contexts[t.sender];
    var member := Find(context.snapshot, t.sender).value;
    Active(t, session, device, now, ScopeNodeId(member, t.scope), MayReceive(context.policy, member, t.scope))
  }

  function ActivateSection(s: Store, t: Authorized, session: Id, device: Id, now: Time, granted: bool): (Store, Activation) {
    var obstacle := ActivationObstacle(s, t, session, device, now);
    if obstacle.Some? then (s, NotActivated(obstacle.value))
    else if !granted then (s, NotActivated(VoiceControlFailed))
    else
      var a := ActiveFor(s, t, session, device, now);
      (s.(active := s.active[t.id := a]), Activated(a))
  }

  function EndObstacle(s: Store, id: Id, session: Id, device: Id): Option<EndError> {
    if id !in s.active then Some(TransmissionNotFound)
    else if s.active[id].session != session || s.active[id].device != device then Some(TransmissionNotOwned)
    else None
  }

  /** The store without some of its transmissions. */
  function Without(s: Store, gone: set<Id>): Store { s.(active := s.active - gone) }

  function OfPlayer(s: Store, player: Id): set<Id> {
    set id | id in s.active && s.active[id].authorization.sender == player
  }

  function OfSession(s: Store, session: Id): set<Id> { set id | id in s.active && s.active[id].session == session }

  function Overdue(s: Store, maximum: Time, now: Time): set<Id> {
    set id | id in s.active && now - s.active[id].startedAt >= maximum
  }

  function UpdateObstacle(s: Store, player: Id, context: Context): Option<UpdateError> {
    if Find(context.snapshot, player).None? then Some(PlayerNotInSnapshot)
    else if player in s.contexts && context.snapshot.version <= s.contexts[player].snapshot.version
    then Some(VersionNotNewer)
    else None
  }

  function ReasonFor(change: ContextChange): StopReason {
    if change == PermissionsChanged then PermissionRevoked else MembershipChanged
  }

  function UpdateSection(s: Store, player: Id, context: Context): Store {
    if UpdateObstacle(s, player, context).Some? then s
    else Without(s, OfPlayer(s, player)).(contexts := s.contexts[player := context])
  }

  function RemoveMembershipSection(s: Store, player: Id): Store {
    Without(s, OfPlayer(s, player)).(contexts := s.contexts - {player})
  }

  function RemoveSessionSection(s: Store, session: Id): Store {
    if session !in s.sessions then s
    else Without(s, OfSession(s, session)).(sessions := s.sessions - {session})
  }

  function UpsertSessionSection(s: Store, session: Session): Store { s.(sessions := s.sessions[session.id := session]) }

  // ---------------------------------------------------------------- the invariant

  /** Every transmission is filed under its own id. */
  ghost predicate Keyed(s: Store) { forall id <- s.active :: s.active[id].authorization.id == id }

  ghost predicate OnePerSender(s: Store) {
    forall i <- s.active, j <- s.active :: s.active[i].authorization.sender == s.active[j].authorization.sender ==> i == j
  }

  /** The transmission is the one its sender's current membership stands for. */
  predicate Current(contexts: map<Id, Context>, a: Active) {
    && a.authorization.sender in contexts
    && var context := contexts[a.authorization.sender];
       var member := Find(context.snapshot, a.authorization.sender);
       && context.snapshot.version == a.authorization.membershipVersion
       && FindScope(context.snapshot.hierarchy.scopes, a.authorization.scope).Some?
       && member.Some?
       && a.node == ScopeNodeId(member.value, a.authorization.scope)
       && a.canSubscribe == MayReceive(context.policy, member.value, a.authorization.scope)
  }

  ghost predicate Coherent(s: Store) { forall id <- s.active :: Current(s.contexts, s.active[id]) }

  /** The session that started a transmission is still there. */
  ghost predicate Hosted(s: Store) { forall id <- s.active :: s.active[id].session in s.sessions }

  ghost predicate Inv(s: Store) { Keyed(s) && OnePerSender(s) && Coherent(s) && Hosted(s) }

  lemma ActivateKeepsInv(s: Store, t: Authorized, session: Id, device: Id, now: Time, granted: bool)
    requires Inv(s)
    ensures Inv(ActivateSection(s, t, session, device, now, granted).0)
  {
    var s' := ActivateSection(s, t, session, device, now, granted).0;
    if s' != s {
      forall i <- s'.active, j <- s'.active | s'.active[i].authorization.sender == s'.active[j].authorization.sender
        ensures i == j
      {
        assert i != t.id ==> s.active[i].authorization.sender != t.sender;
        assert j != t.id ==> s.active[j].authorization.sender != t.sender;
      }
    }
  }

  lemma WithoutKeepsInv(s: Store, gone: set<Id>)
    requires Inv(s)
    ensures Inv(Without(s, gone))
  {}

  lemma UpdateKeepsInv(s: Store, player: Id, context: Context)
    requires Inv(s)
    ensures Inv(UpdateSection(s, player, context))
  {
    var s' := UpdateSection(s, player, context);
    forall id <- s'.active ensures Current(s'.contexts, s'.active[id]) {
      assert Current(s.contexts, s.active[id]);
    }
  }

  lemma RemoveMembershipKeepsInv(s: Store, player: Id)
    requires Inv(s)
    ensures Inv(RemoveMembershipSection(s, player))
  {
    var s' := RemoveMembershipSection(s, player);
    forall id <- s'.active ensures Current(s'.contexts, s'.active[id]) {
      assert Current(s.contexts, s.active[id]);
    }
  }

  lemma RemoveSessionKeepsInv(s: Store, session: Id)
    requires Inv(s)
    ensures Inv(RemoveSessionSection(s, session))
  {}

  // ---------------------------------------------------------------- the speaker limit

  /** Who speaks at a node, by the node stored with the transmission. */
  function Speakers(s: Store, scope: VoiceScope, node: Id): set<Id> {
    set id | id in s.active && s.active[id].authorization.scope == scope && s.active[id].node == node
  }

  /** Counting through current memberships, as activation does, counts the stored nodes. */
  lemma SpeakersBesideAreSpeakers(s: Store, member: Membership, scope: VoiceScope)
    requires Coherent(s)
    ensures SpeakersBeside(s, member, scope) == Speakers(s, scope, ScopeNodeId(member, scope))
  {
    forall id <- s.active
      ensures SpeaksBeside(s, member, scope, s.active[id]) <==>
        s.active[id].authorization.scope == scope && s.active[id].node == ScopeNodeId(member, scope)
    {
      assert Current(s.contexts, s.active[id]);
    }
  }

  lemma OneMoreSpeaker(s: Store, id: Id, a: Active, scope: VoiceScope, node: Id)
    requires id !in s.active
    ensures Speakers(s.(active := s.active[id := a]), scope, node) ==
      Speakers(s, scope, node) + if a.authorization.scope == scope && a.node == node then {id} else {}
    ensures id !in Speakers(s, scope, node)
  {}

  /** An activation never takes its node above the limit of the sender's own hierarchy; other nodes are untouched. */
  lemma ActivationFits(s: Store, t: Authorized, session: Id, device: Id, now: Time, scope: VoiceScope, node: Id)
    requires Coherent(s) && ActivationObstacle(s, t, session, device, now).None?
    ensures var s' := ActivateSection(s, t, session, device, now, true).0;
      var limit := FindScope(s.contexts[t.sender].snapshot.hierarchy.scopes, t.scope).value.maxSpeakers;
      if scope == t.scope && node == ActiveFor(s, t, session, device, now).node
      then |Speakers(s', scope, node)| == |Speakers(s, scope, node)| + 1
        && (limit.Some? ==> |Speakers(s', scope, node)| <= limit.value)
      else Speakers(s', scope, node) == Speakers(s, scope, node)
  {
    OneMoreSpeaker(s, t.id, ActiveFor(s, t, session, device, now), scope, node);
    SpeakersBesideAreSpeakers(s, Find(s.contexts[t.sender].snapshot, t.sender).value, t.scope);
  }

  type Limits = map<VoiceScope, nat>

  /** A context that knows these limits or smaller ones. */
  ghost predicate AtMost(context: Context, limits: Limits) {
    forall scope <- limits :: var definition := FindScope(context.snapshot.hierarchy.scopes, scope);
      definition.Some? ==> definition.value.maxSpeakers.Some? && definition.value.maxSpeakers.value <= limits[scope]
  }

  ghost predicate AllAtMost(s: Store, limits: Limits) { forall player <- s.contexts :: AtMost(s.contexts[player], limits) }

  ghost predicate Within(s: Store, limits: Limits) {
    forall scope, node :: scope in limits ==> |Speakers(s, scope, node)| <= limits[scope]
  }

  lemma ActivateKeepsWithin(s: Store, t: Authorized, session: Id, device: Id, now: Time, granted: bool, limits: Limits)
    requires Inv(s) && AllAtMost(s, limits) && Within(s, limits)
    ensures Within(ActivateSection(s, t, session, device, now, granted).0, limits)
  {
    if ActivationObstacle(s, t, session, device, now).None? && granted {
      assert AtMost(s.contexts[t.sender], limits);
      forall scope, node | scope in limits
        ensures |Speakers(ActivateSection(s, t, session, device, now, true).0, scope, node)| <= limits[scope]
      {
        ActivationFits(s, t, session, device, now, scope, node);
      }
    }
  }

  /** Whatever limits the contexts carry: an activation keeps given limits exactly if its node has room under them. */
  lemma ActivationKeepsWithinExactly(s: Store, t: Authorized, session: Id, device: Id, now: Time, limits: Limits)
    requires Coherent(s) && Within(s, limits) && ActivationObstacle(s, t, session, device, now).None?
    ensures var node := ActiveFor(s, t, session, device, now).node;
      Within(ActivateSection(s, t, session, device, now, true).0, limits) <==>
        (t.scope in limits ==> |Speakers(s, t.scope, node)| < limits[t.scope])
  {
    var s' := ActivateSection(s, t, session, device, now, true).0;
    var node := ActiveFor(s, t, session, device, now).node;
    ActivationFits(s, t, session, device, now, t.scope, node);
    if t.scope in limits ==> |Speakers(s, t.scope, node)| < limits[t.scope] {
      forall scope, other | scope in limits ensures |Speakers(s', scope, other)| <= limits[scope] {
        ActivationFits(s, t, session, device, now, scope, other);
      }
    }
  }

  lemma SubsetIsSmaller(a: set<Id>, b: set<Id>)
    requires a <= b
    ensures |a| <= |b|
  {
    assert b == a + (b - a);
  }

  lemma FewerKeepWithin(s: Store, s': Store, limits: Limits)
    requires Within(s, limits)
    requires forall id <- s'.active :: id in s.active && s'.active[id] == s.active[id]
    ensures Within(s', limits)
  {
    forall scope, node | scope in limits ensures |Speakers(s', scope, node)| <= limits[scope] {
      SubsetIsSmaller(Speakers(s', scope, node), Speakers(s, scope, node));
    }
  }

  // ---------------------------------------------------------------- the store itself

  function IdsOf(ended: seq<Ended>): seq<Id> { seq(|ended|, i requires 0 <= i < |ended| => ended[i].transmission.authorization.id) }

  /** `ended` lists the transmissions that went, each exactly once, as they were. */
  ghost predicate Lists(ended: seq<Ended>, before: map<Id, Active>, gone: set<Id>, reason: StopReason, at: Time) {
    && (forall e <- ended :: e.transmission.authorization.id in gone)
    && (forall e <- ended :: e.transmission.authorization.id in before &&
          e == Ended(before[e.transmission.authorization.id], reason, at))
    && multiset(IdsOf(ended)) == multiset(gone)
  }

  lemma ListsMore(ended: seq<Ended>, before: map<Id, Active>, gone: set<Id>, reason: StopReason, at: Time, id: Id)
    requires Lists(ended, before, gone, reason, at)
    requires id in before && id !in gone && before[id].authorization.id == id
    ensures Lists(ended + [Ended(before[id], reason, at)], before, gone + {id}, reason, at)
  {
    var more := ended + [Ended(before[id], reason, at)];
    assert IdsOf(more) == IdsOf(ended) + [id];
    assert multiset(gone + {id}) == multiset(gone) + multiset{id};
  }

  /** An erasing sweep in progress: of the picked transmissions, those no longer left are gone and listed. */
  ghost predicate Swept(before: Store, s: Store, ended: seq<Ended>, picked: set<Id>, left: set<Id>, reason: StopReason, at: Time) {
    && left <= before.active.Keys && picked <= before.active.Keys
    && s == Without(before, picked - left)
    && Lists(ended, before.active, picked - left, reason, at)
  }

  lemma SweepSees(before: Store, s: Store, ended: seq<Ended>, picked: set<Id>, left: set<Id>, reason: StopReason, at: Time, id: Id)
    requires Swept(before, s, ended, picked, left, reason, at) && id in left
    ensures id in s.active && s.active[id] == before.active[id]
  {}

  lemma SweepSkips(before: Store, s: Store, ended: seq<Ended>, picked: set<Id>, left: set<Id>, reason: StopReason, at: Time, id: Id)
    requires Swept(before, s, ended, picked, left, reason, at) && id in left && id !in picked
    ensures Swept(before, s, ended, picked, left - {id}, reason, at)
  {
    assert picked - (left - {id}) == picked - left;
  }

  lemma SweepTakes(before: Store, s: Store, ended: seq<Ended>, picked: set<Id>, left: set<Id>, reason: StopReason, at: Time, id: Id)
    requires Swept(before, s, ended, picked, left, reason, at) && id in left && id in picked
    requires before.active[id].authorization.id == id
    ensures Swept(before, Without(s, {id}), ended + [Ended(before.active[id], reason, at)], picked, left - {id}, reason, at)
  {
    var gone := picked - left;
    assert picked - (left - {id}) == gone + {id};
    assert before.active - gone - {id} == before.active - (gone + {id});
    ListsMore(ended, before.active, gone, reason, at, id);
  }

  lemma SweepEnds(before: Store, s: Store, ended: seq<Ended>, picked: set<Id>, reason: StopReason, at: Time)
    requires Swept(before, s, ended, picked, {}, reason, at)
    ensures s == Without(before, picked) && Lists(ended, before.active, picked, reason, at)
  {
    assert picked - {} == picked;
  }

  lemma SweepStarts(s: Store, picked: set<Id>, reason: StopReason, at: Time)
    requires picked <= s.active.Keys
    ensures Swept(s, s, [], picked, s.active.Keys, reason, at)
  {
    assert picked - s.active.Keys == {};
    assert s.active - {} == s.active;
  }

  /** Nothing as old as the maximum is left; everything younger is, as it was, and is not listed. */
  ghost predicate KeepsTheYoung(before: map<Id, Active>, after: map<Id, Active>, expired: seq<Ended>, maximum: Time, now: Time) {
    && (forall id <- after :: now - after[id].startedAt < maximum)
    && (forall id <- before :: now - before[id].startedAt < maximum ==>
          id in after && after[id] == before[id] && forall e <- expired :: e.transmission != before[id])
  }

  lemma OverdueAreOld(s: Store, expired: seq<Ended>, maximum: Time, now: Time)
    requires Keyed(s) && Lists(expired, s.active, Overdue(s, maximum, now), TimedOut, now)
    ensures KeepsTheYoung(s.active, s.active - Overdue(s, maximum, now), expired, maximum, now)
  {}

  lemma OneFewerLeft(all: set<Id>, left: set<Id>, id: Id)
    requires id in left
    ensures |all - (left - {id})| == |all - left| + if id in all then 1 else 0
  {
    assert all - (left - {id}) == if id in all then all - left + {id} else all - left;
  }

  class InMemoryStore {
    var sessions: map<Id, Session>
    var contexts: map<Id, Context>
    var active: map<Id, Active>

    constructor ()
      ensures View() == Store(map[], map[], map[])
    {
      sessions, contexts, active := map[], map[], map[];
    }

    function View(): Store
      reads this
    {
      Store(sessions, contexts, active)
    }

    method UpsertSession(session: Session)
      modifies this
      ensures View() == UpsertSessionSection(old(View()), session)
    {
      sessions := sessions[session.id := session];
    }

    method Activate(t: Authorized, session: Id, device: Id, now: Time, granted: bool) returns (r: Activation)
      modifies this
      ensures (View(), r) == ActivateSection(old(View()), t, session, device, now, granted)
    {
      if session !in sessions || sessions[session].player != t.sender || sessions[session].device != device
        || !ActiveAt(sessions[session], now)
      {
        return NotActivated(SessionChanged);
      }
      if t.sender !in contexts || contexts[t.sender].snapshot.version != t.membershipVersion {
        return NotActivated(MembershipChangedDuringStart);
      }
      var context := contexts[t.sender];
      var member := Find(context.snapshot, t.sender);
      var definition := FindScope(context.snapshot.hierarchy.scopes, t.scope);
      if member.None? || definition.None? { return NotActivated(MembershipChangedDuringStart); }
      if definition.value.maxSpeakers.Some? {
        var matching := CountSpeakers(member.value, t.scope);
        if matching >= definition.value.maxSpeakers.value { return NotActivated(SpeakerLimitReached); }
      }
      var transmitting := IsTransmitting(t.sender);
      if transmitting { return NotActivated(SenderAlreadyTransmitting); }
      if t.id in active { return NotActivated(TransmissionIdConflict); }
      var a := Active(t, session, device, now, ScopeNodeId(member.value, t.scope),
                      member.value.canReceive && CanReceive(context.policy, member.value.roles, t.scope));
      active := active[t.id := a];
      if !granted {
        active := active - {t.id};
        assert active == old(active);
        return NotActivated(VoiceControlFailed);
      }
      return Activated(a);
    }

    method CountSpeakers(member: Membership, scope: VoiceScope) returns (matching: nat)
      ensures matching == |SpeakersBeside(View(), member, scope)|
    {
      matching := 0;
      var left := active.Keys;
      ghost var beside := SpeakersBeside(View(), member, scope);
      assert beside - left == {};
      while left != {}
        invariant left <= active.Keys && matching == |beside - left|
        decreases |left|
      {
        var id :| id in left;
        OneFewerLeft(beside, left, id);
        left := left - {id};
        var a := active[id];
        if a.authorization.scope != scope { continue; }
        if a.authorization.sender !in contexts { continue; }
        var other := Find(contexts[a.authorization.sender].snapshot, a.authorization.sender);
        if other.Some? && ScopeNodeId(member, scope) == ScopeNodeId(other.value, scope) {
          matching := matching + 1;
        }
      }
      assert beside - left == beside;
    }

    method IsTransmitting(player: Id) returns (found: bool)
      ensures found == Transmits(View(), player)
    {
      var left := active.Keys;
      while left != {}
        invariant left <= active.Keys
        invariant forall id <- active.Keys - left :: active[id].authorization.sender != player
        decreases |left|
      {
        var id :| id in left;
        if active[id].authorization.sender == player { return true; }
        left := left - {id};
      }
      return false;
    }

    method End(id: Id, session: Id, device: Id, reason: StopReason, now: Time) returns (r: EndResult)
      modifies this
      ensures match EndObstacle(old(View()), id, session, device)
        case Some(error) => View() == old(View()) && r == NotStopped(error)
        case None => View() == Without(old(View()), {id}) && r == Stopped(Ended(old(active)[id], reason, now))
    {
      if id !in active { return NotStopped(TransmissionNotFound); }
      if active[id].session != session || active[id].device != device { return NotStopped(TransmissionNotOwned); }
      r := Stopped(Ended(active[id], reason, now));
      active := active - {id};
    }

    method Interrupt(id: Id, reason: StopReason, now: Time) returns (r: EndResult)
      modifies this
      ensures if id in old(active)
        then View() == Without(old(View()), {id}) && r == Stopped(Ended(old(active)[id], reason, now))
        else View() == old(View()) && r == NotStopped(TransmissionNotFound)
    {
      if id !in active { return NotStopped(TransmissionNotFound); }
      r := Stopped(Ended(active[id], reason, now));
      active := active - {id};
    }

    /** The erasing loop of expiry: it visits every transmission and keeps the young ones. */
    method ExpireTimedOut(maximum: Time, now: Time) returns (expired: seq<Ended>)
      requires Keyed(View())
      modifies this
      ensures View() == Without(old(View()), Overdue(old(View()), maximum, now))
      ensures Lists(expired, old(active), Overdue(old(View()), maximum, now), TimedOut, now)
      ensures KeepsTheYoung(old(active), active, expired, maximum, now)
    {
      expired := [];
      var left := active.Keys;
      ghost var before := View();
      ghost var picked := Overdue(before, maximum, now);
      SweepStarts(before, picked, TimedOut, now);
      while left != {}
        invariant Swept(before, View(), expired, picked, left, TimedOut, now)
        decreases |left|
      {
        var id :| id in left;
        SweepSees(before, View(), expired, picked, left, TimedOut, now, id);
        if now - active[id].startedAt < maximum {
          SweepSkips(before, View(), expired, picked, left, TimedOut, now, id);
          left := left - {id};
          continue;
        }
        SweepTakes(before, View(), expired, picked, left, TimedOut, now, id);
        expired := expired + [Ended(active[id], TimedOut, now)];
        active := active - {id};
        left := left - {id};
      }
      SweepEnds(before, View(), expired, picked, TimedOut, now);
      OverdueAreOld(before, expired, maximum, now);
    }

    method InterruptForPlayer(player: Id, reason: StopReason, now: Time) returns (interrupted: seq<Ended>)
      requires Keyed(View())
      modifies this
      ensures View() == Without(old(View()), OfPlayer(old(View()), player))
      ensures Lists(interrupted, old(active), OfPlayer(old(View()), player), reason, now)
    {
      interrupted := [];
      var left := active.Keys;
      ghost var before := View();
      ghost var picked := OfPlayer(before, player);
      SweepStarts(before, picked, reason, now);
      while left != {}
        invariant Swept(before, View(), interrupted, picked, left, reason, now)
        decreases |left|
      {
        var id :| id in left;
        SweepSees(before, View(), interrupted, picked, left, reason, now, id);
        if active[id].authorization.sender != player {
          SweepSkips(before, View(), interrupted, picked, left, reason, now, id);
          left := left - {id};
          continue;
        }
        SweepTakes(before, View(), interrupted, picked, left, reason, now, id);
        interrupted := interrupted + [Ended(active[id], reason, now)];
        active := active - {id};
        left := left - {id};
      }
      SweepEnds(before, View(), interrupted, picked, reason, now);
    }

    method InterruptForSession(session: Id, reason: StopReason, now: Time) returns (interrupted: seq<Ended>)
      requires Keyed(View())
      modifies this
      ensures View() == Without(old(View()), OfSession(old(View()), session))
      ensures Lists(interrupted, old(active), OfSession(old(View()), session), reason, now)
    {
      interrupted := [];
      var left := active.Keys;
      ghost var before := View();
      ghost var picked := OfSession(before, session);
      SweepStarts(before, picked, reason, now);
      while left != {}
        invariant Swept(before, View(), interrupted, picked, left, reason, now)
        decreases |left|
      {
        var id :| id in left;
        SweepSees(before, View(), interrupted, picked, left, reason, now, id);
        if active[id].session != session {
          SweepSkips(before, View(), interrupted, picked, left, reason, now, id);
          left := left - {id};
          continue;
        }
        SweepTakes(before, View(), interrupted, picked, left, reason, now, id);
        interrupted := interrupted + [Ended(active[id], reason, now)];
        active := active - {id};
        left := left - {id};
      }
      SweepEnds(before, View(), interrupted, picked, reason, now);
    }

    method UpdateMembership(player: Id, context: Context, now: Time, change: ContextChange) returns (r: UpdateResult)
      requires Keyed(View())
      modifies this
      ensures View() == UpdateSection(old(View()), player, context)
      ensures match UpdateObstacle(old(View()), player, context)
        case Some(error) => r == NotUpdated(error)
        case None => r.Updated? && Lists(r.interrupted, old(active), OfPlayer(old(View()), player), ReasonFor(change), now)
    {
      if Find(context.snapshot, player).None? { return NotUpdated(PlayerNotInSnapshot); }
      if player in contexts && context.snapshot.version <= contexts[player].snapshot.version {
        return NotUpdated(VersionNotNewer);
      }
      contexts := contexts[player := context];
      var interrupted := InterruptForPlayer(player, ReasonFor(change), now);
      return Updated(interrupted);
    }

    method RemoveMembership(player: Id, now: Time) returns (interrupted: seq<Ended>)
      requires Keyed(View())
      modifies this
      ensures View() == RemoveMembershipSection(old(View()), player)
      ensures Lists(interrupted, old(active), OfPlayer(old(View()), player), MembershipChanged, now)
    {
      contexts := contexts - {player};
      interrupted := InterruptForPlayer(player, MembershipChanged, now);
    }

    method RemoveSession(session: Id, now: Time) returns (interrupted: seq<Ended>)
      requires Keyed(View())
      modifies this
      ensures View() == RemoveSessionSection(old(View()), session)
      ensures session in old(sessions) ==>
        Lists(interrupted, old(active), OfSession(old(View()), session), Disconnected, now)
      ensures session !in old(sessions) ==> interrupted == []
    {
      if session !in sessions { return []; }
      sessions := sessions - {session};
      interrupted := InterruptForSession(session, Disconnected, now);
    }
  }
}
