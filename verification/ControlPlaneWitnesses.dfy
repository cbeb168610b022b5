/** Runs from an empty store that show what the control plane does not promise: late revocations, and limits that differ. */
module ControlPlaneWitnesses {
  import opened Basics
  import opened Domain
  import opened VoiceGrants
  import opened ControlPlaneStore
  import opened ControlPlaneRuns
  import ControlPlaneRights
  import Decimal
  import Routing

  // ---------------------------------------------------------------- runs put together

  ghost predicate Reaches(s: State, events: seq<Event>, end: State) { CanRun(s, events) && Run(s, events) == end }

  lemma {:induction false} Then(s: State, events: seq<Event>, mid: State, e: Event)
    requires Reaches(s, events, mid) && Enabled(mid, e)
    ensures Reaches(s, events + [e], Next(mid, e))
    decreases |events|
  {
    if events == [] {
      assert events + [e] == [e];
    } else {
      Then(Next(s, events[0]), events[1..], mid, e);
      assert (events + [e])[1..] == events[1..] + [e];
    }
  }

  /** What a start command asks to be authorised as, once resolved. */
  ghost function Asked(store: Store, command: Command, player: Id, id: Id): Authorized
    requires command.what.Start? && player in store.contexts && Find(store.contexts[player].snapshot, player).Some?
  {
    var context := store.contexts[player];
    Authorized(id, command.what.clientId, player, command.what.scope, context.snapshot.version,
               Routing.Recipients(context.policy, Find(context.snapshot, player).value, command.what.scope, [], context.snapshot.memberships))
  }

  /** Nothing stands in the way of a start command. */
  ghost predicate Clear(store: Store, command: Command, player: Id, id: Id) {
    && command.what.Start? && SessionPlayer(store, command) == Some(player) && player in store.contexts
    && Find(store.contexts[player].snapshot, player).Some?
    && Routing.Obstacle(store.contexts[player].snapshot, store.contexts[player].policy,
                        Routing.Request(player, command.what.scope, command.what.membershipVersion)).None?
    && ActivationObstacle(store, Asked(store, command, player, id), command.session, command.device, command.now).None?
  }

  /** The state after a start command has gone through undisturbed. */
  ghost predicate Started(s: State, s': State, n: nat, command: Command, player: Id, id: Id)
    requires Clear(s.store, command, player, id)
  {
    var t := Asked(s.store, command, player, id);
    var a := ActiveFor(s.store, t, command.session, command.device, command.now);
    && s'.store == s.store.(active := s.store.active[id := a]) && s'.rights == s.rights + {RightOf(a)}
    && s'.revocations == s.revocations && s'.generated == s.generated + {id} && s'.begun == s.begun + {id}
    && s'.shadowed == (if Shadows(s.revocations, RightOf(a)) then s.shadowed + {id} else s.shadowed)
    && s'.calls == s.calls[n := Call(command, Accepted)]
  }

  lemma Advance(origin: State, events: seq<Event>, mid: State, e: Event, next: State) returns (longer: seq<Event>)
    requires Reaches(origin, events, mid) && Enabled(mid, e) && Next(mid, e) == next
    ensures Reaches(origin, longer, next) && longer == events + [e]
  {
    Then(origin, events, mid, e);
    longer := events + [e];
  }

  /** A start command that meets no obstacle goes through, section by section. */
  lemma StartGoesThrough(origin: State, events: seq<Event>, s: State, n: nat, command: Command, player: Id, id: Id)
    returns (longer: seq<Event>, s': State)
    requires Reaches(origin, events, s) && n !in s.calls && id !in s.generated && Clear(s.store, command, player, id)
    ensures Reaches(origin, longer, s') && Started(s, s', n, command, player, id)
    ensures forall e <- longer :: e in events || e.Called? || e.Stepped?
  {
    var go, t := Stepped(n, Choice(true, id)), Asked(s.store, command, player, id);
    var mid := s.(calls := s.calls[n := Call(command, Finding)]);
    longer := Advance(origin, events, s, Called(n, command), mid);
    CallMoves(mid, n, id, Limiting(player));
    longer := Advance(origin, longer, mid, go, s.(calls := s.calls[n := Call(command, Limiting(player))]));
    mid := s.(calls := s.calls[n := Call(command, Limiting(player))]);
    CallMoves(mid, n, id, Authorizing);
    longer := Advance(origin, longer, mid, go, s.(calls := s.calls[n := Call(command, Authorizing)]));
    mid := s.(calls := s.calls[n := Call(command, Authorizing)]);
    longer, s' := StartIsResolved(origin, longer, s, mid, n, command, player, id);
  }

  lemma StartIsResolved(origin: State, events: seq<Event>, s: State, at: State, n: nat, command: Command, player: Id, id: Id)
    returns (longer: seq<Event>, s': State)
    requires Reaches(origin, events, at) && id !in s.generated && Clear(s.store, command, player, id)
    requires at == s.(calls := s.calls[n := Call(command, Authorizing)])
    ensures Reaches(origin, longer, s') && Started(s, s', n, command, player, id)
    ensures forall e <- longer :: e in events || e.Stepped?
  {
    var go, t := Stepped(n, Choice(true, id)), Asked(s.store, command, player, id);
    var resolving := s.(calls := s.calls[n := Call(command, Resolving(player))]);
    var activating := s.(calls := s.calls[n := Call(command, Activating(t))], generated := s.generated + {id});
    CallMoves(at, n, id, Resolving(player));
    longer := Advance(origin, events, at, go, resolving);
    CallResolves(resolving, n, id, player, activating);
    longer := Advance(origin, longer, resolving, go, activating);
    CallActivates(s, activating, n, command, player, id);
    s' := Next(activating, go);
    longer := Advance(origin, longer, activating, go, s');
  }

  lemma CallMoves(s: State, n: nat, id: Id, progress: Progress)
    requires n in s.calls && s.calls[n].command.what.Start? && SessionPlayer(s.store, s.calls[n].command).Some?
    requires match s.calls[n].progress
      case Finding => progress == Limiting(SessionPlayer(s.store, s.calls[n].command).value)
      case Limiting(_) => progress == Authorizing
      case Authorizing => progress == Resolving(SessionPlayer(s.store, s.calls[n].command).value)
      case _ => false
    ensures Enabled(s, Stepped(n, Choice(true, id)))
    ensures Next(s, Stepped(n, Choice(true, id))) == s.(calls := s.calls[n := s.calls[n].(progress := progress)])
  {}

  lemma CallResolves(s: State, n: nat, id: Id, player: Id, s': State)
    requires n in s.calls && s.calls[n].progress == Resolving(player)
    requires id !in s.generated && Clear(s.store, s.calls[n].command, player, id)
    requires s' == s.(calls := s.calls[n := s.calls[n].(progress := Activating(Asked(s.store, s.calls[n].command, player, id)))],
                      generated := s.generated + {id})
    ensures Enabled(s, Stepped(n, Choice(true, id))) && Next(s, Stepped(n, Choice(true, id))) == s'
  {}

  lemma CallActivates(s: State, mid: State, n: nat, command: Command, player: Id, id: Id)
    requires Clear(s.store, command, player, id)
    requires mid == s.(calls := s.calls[n := Call(command, Activating(Asked(s.store, command, player, id)))], generated := s.generated + {id})
    ensures Enabled(mid, Stepped(n, Choice(true, id))) && Started(s, Next(mid, Stepped(n, Choice(true, id))), n, command, player, id)
  {}

  // ---------------------------------------------------------------- a player and a place

  /** The context of one player who may speak at a scope, for a limit or none. */
  function Place(player: Id, scope: VoiceScope, limit: Option<nat>): Context {
    Context(
      Snapshot(1,
        Hierarchy("h", [ScopeDefinition(scope, "S", 0, limit)], [GroupNode("g", "G", true)],
                  [SpecializationNode("s", "g", "S")], [TeamNode("t", "s", "T")]),
        [Membership(player, "g", "s", "t", ["r"], true, true, false, NotBanned)]),
      RolePolicy([Role("r", [scope], [scope])]))
  }

  function NodeAt(scope: VoiceScope): Id {
    match scope
    case Team => "t"
    case Specialization => "s"
    case Group => "g"
  }

  function StartAt(player: Id, scope: VoiceScope): Command { Command(player, player, 0, Start(player, scope, 1)) }

  lemma PlaceFacts(player: Id, scope: VoiceScope, limit: Option<nat>)
    ensures var context := Place(player, scope, limit); var member := context.snapshot.memberships[0];
      && ValidSnapshot(context.snapshot)
      && Find(context.snapshot, player) == Some(member) && ScopeNodeId(member, scope) == NodeAt(scope)
      && FindScope(context.snapshot.hierarchy.scopes, scope) == Some(ScopeDefinition(scope, "S", 0, limit))
      && Routing.Obstacle(context.snapshot, context.policy, Routing.Request(player, scope, 1)).None?
  {
    var context := Place(player, scope, limit);
    var member := context.snapshot.memberships[0];
    FindIsMembership(context.snapshot, player);
    assert member in context.snapshot.memberships;
    assert "r" in member.roles && FindRole(context.policy.roles, "r") == Some(Role("r", [scope], [scope]));
  }

  const EMPTY: State := State(Store(map[], map[], map[]), {}, [], {}, {}, {}, map[], [], [])

  function SessionOf(player: Id): Session { Session(player, player, player, 1) }

  // ---------------------------------------------------------------- a late revocation

  /** Nothing stands in the way of a player at its place who does not transmit yet. */
  lemma PlaceIsClear(store: Store, player: Id, scope: VoiceScope, limit: Option<nat>, id: Id)
    requires player in store.sessions && store.sessions[player] == SessionOf(player)
    requires player in store.contexts && store.contexts[player] == Place(player, scope, limit)
    requires !Transmits(store, player) && id !in store.active
    requires limit.Some? ==> |SpeakersBeside(store, Place(player, scope, limit).snapshot.memberships[0], scope)| < limit.value
    ensures Clear(store, StartAt(player, scope), player, id)
    ensures ActiveFor(store, Asked(store, StartAt(player, scope), player, id), player, player, 0).node == NodeAt(scope)
  {
    PlaceFacts(player, scope, limit);
  }

  const PLAYER: Id := "p"

  /** The player has a session and a place, and has started transmission "1". */
  lemma ToFirst() returns (events: seq<Event>, s: State)
    ensures Reaches(EMPTY, events, s)
    ensures s.store.sessions == map[PLAYER := SessionOf(PLAYER)] && s.store.contexts == map[PLAYER := Place(PLAYER, Team, None)]
    ensures s.store.active.Keys == {"1"} && s.store.active["1"].session == PLAYER && s.revocations == [] && s.shadowed == {}
    ensures RightOf(s.store.active["1"]) == Right(RoomName(Team, "t"), PLAYER)
    ensures s.generated == {"1"} && s.calls.Keys == {0}
  {
    var withSession := EMPTY.(store := Store(map[PLAYER := SessionOf(PLAYER)], map[], map[]));
    var placed := EMPTY.(store := Store(map[PLAYER := SessionOf(PLAYER)], map[PLAYER := Place(PLAYER, Team, None)], map[]));
    events := Advance(EMPTY, [], EMPTY, SessionUpserted(SessionOf(PLAYER)), withSession);
    Placing(withSession, PLAYER, Team, None, placed);
    events := Advance(EMPTY, events, withSession, MembershipUpdated(PLAYER, Place(PLAYER, Team, None), 0, PlacementChanged, []), placed);
    PlaceIsClear(placed.store, PLAYER, Team, None, "1");
    events, s := StartGoesThrough(EMPTY, events, placed, 0, StartAt(PLAYER, Team), PLAYER, "1");
  }

  /** A player gets its place, having no transmission to lose. */
  lemma Placing(s: State, player: Id, scope: VoiceScope, limit: Option<nat>, s': State)
    requires player !in s.store.contexts && OfPlayer(s.store, player) == {}
    requires s' == s.(store := s.store.(contexts := s.store.contexts[player := Place(player, scope, limit)]))
    ensures var e := MembershipUpdated(player, Place(player, scope, limit), 0, PlacementChanged, []);
      Enabled(s, e) && Next(s, e) == s'
  {
    PlaceFacts(player, scope, limit);
    var e := MembershipUpdated(player, Place(player, scope, limit), 0, PlacementChanged, []);
    assert Gone(s, e) == {};
    assert s.store.active - {} == s.store.active;
    var ended := EndsOf(s.store.active, [], MembershipChanged, 0);
    assert s.revocations + ended == s.revocations && s.pending + Interruptions(ended, MembershipChange) == s.pending;
  }

  /** Its session goes, and with it the transmission; the revocation is still to come when it starts transmission "2". */
  lemma ToSecond() returns (events: seq<Event>, s: State)
    ensures Reaches(EMPTY, events, s)
    ensures s.store.active.Keys == {"2"} && RightOf(s.store.active["2"]) == Right(RoomName(Team, "t"), PLAYER)
    ensures |s.revocations| == 1 && RightOf(s.revocations[0].transmission) == Right(RoomName(Team, "t"), PLAYER)
    ensures "2" in s.shadowed
  {
    var first: State;
    events, first := ToFirst();
    var ended := Ended(first.store.active["1"], Disconnected, 0);
    var left := first.(store := Store(map[], first.store.contexts, map[]), revocations := [ended],
                       pending := first.pending + [InterruptionRecorded(ended, SessionLifecycle)]);
    Leaving(first, left);
    events := Advance(EMPTY, events, first, SessionRemoved(PLAYER, 0, ["1"]), left);
    var back := left.(store := Store(map[PLAYER := SessionOf(PLAYER)], left.store.contexts, map[]));
    events := Advance(EMPTY, events, left, SessionUpserted(SessionOf(PLAYER)), back);
    PlaceIsClear(back.store, PLAYER, Team, None, "2");
    events, s := StartGoesThrough(EMPTY, events, back, 1, StartAt(PLAYER, Team), PLAYER, "2");
    assert ended in back.revocations;
  }

  lemma Leaving(s: State, s': State)
    requires s.store.sessions == map[PLAYER := SessionOf(PLAYER)] && s.revocations == []
    requires s.store.active.Keys == {"1"} && s.store.active["1"].session == PLAYER
    requires var ended := Ended(s.store.active["1"], Disconnected, 0);
      s' == s.(store := Store(map[], s.store.contexts, map[]), revocations := [ended],
               pending := s.pending + [InterruptionRecorded(ended, SessionLifecycle)])
    ensures Enabled(s, SessionRemoved(PLAYER, 0, ["1"])) && Next(s, SessionRemoved(PLAYER, 0, ["1"])) == s'
  {
    var e := SessionRemoved(PLAYER, 0, ["1"]);
    assert Gone(s, e) == {"1"};
    assert multiset(["1"]) == multiset({"1"});
    var ended := EndsOf(s.store.active, ["1"], Disconnected, 0);
    assert ended == [Ended(s.store.active["1"], Disconnected, 0)];
    assert Interruptions(ended, SessionLifecycle) == [InterruptionRecorded(ended[0], SessionLifecycle)];
    assert s.store.active - {"1"} == map[] && s.store.sessions - {PLAYER} == map[];
  }

  /** The revocation of the first transmission silences the second, which stays active. */
  lemma LateRevocationSilences() returns (events: seq<Event>)
    ensures Init(EMPTY) && CanRun(EMPTY, events)
    ensures var s := Run(EMPTY, events);
      "2" in s.store.active && RightOf(s.store.active["2"]) !in s.rights && s.revocations == []
  {
    var s: State;
    events, s := ToSecond();
    events := Advance(EMPTY, events, s, Revoked(0), Next(s, Revoked(0)));
  }

  // ---------------------------------------------------------------- limits that are too large

  function Names(count: nat): set<Id> { set i: nat | i < count :: Decimal.Print(i) }

  lemma {:induction false} NamesCount(count: nat)
    ensures |Names(count)| == count && Decimal.Print(count) !in Names(count)
    ensures Names(count + 1) == Names(count) + {Decimal.Print(count)}
  {
    NewName(count);
    if count > 0 { NamesCount(count - 1); }
  }

  lemma NewName(count: nat)
    ensures Decimal.Print(count) !in Names(count)
  {
    if Decimal.Print(count) in Names(count) {
      var i: nat :| i < count && Decimal.Print(i) == Decimal.Print(count);
      Decimal.PrintIsInjective(i, count);
    }
  }

  /** A player whose name is no number, and whose context knows the limit. */
  const WITNESS: Id := "w"

  lemma WitnessIsNobody(count: nat)
    ensures WITNESS !in Names(count)
  {
    forall i: nat | i < count ensures Decimal.Print(i) != WITNESS {
      Decimal.PrintReads(i);
      assert !Decimal.IsDigit(WITNESS[0]);
    }
  }

  /** So many players speak at one node. */
  ghost predicate Crowd(s: State, scope: VoiceScope, count: nat) {
    CrowdOf(s, scope, Names(count)) && forall n <- s.calls :: n < count
  }

  ghost predicate CrowdOf(s: State, scope: VoiceScope, names: set<Id>) {
    && s.store.active.Keys == names && s.generated == names && s.store.contexts.Keys <= names + {WITNESS}
    && forall id <- s.store.active :: SpeaksAt(s.store.active[id], id, scope)
  }

  predicate SpeaksAt(a: Active, player: Id, scope: VoiceScope) {
    a.authorization.sender == player && a.authorization.scope == scope && a.node == NodeAt(scope)
  }

  lemma CrowdSpeaks(s: State, scope: VoiceScope, count: nat)
    requires Crowd(s, scope, count)
    ensures Speakers(s.store, scope, NodeAt(scope)) == Names(count)
  {
    assert forall id <- s.store.active :: SpeaksAt(s.store.active[id], id, scope);
  }

  /** Every membership context that is stored carries this limit at a scope, or none. */
  ghost predicate AllCarry(events: seq<Event>, scope: VoiceScope, limit: Option<nat>) {
    forall e <- events :: e.MembershipUpdated? ==> Carries(e.context, scope, limit)
  }

  predicate Carries(context: Context, scope: VoiceScope, limit: Option<nat>) {
    var definition := FindScope(context.snapshot.hierarchy.scopes, scope);
    definition.Some? && definition.value.maxSpeakers == limit
  }

  /** One more player comes with its own context. */
  lemma NewcomerComes(events: seq<Event>, s: State, scope: VoiceScope, limit: Option<nat>, count: nat)
    returns (longer: seq<Event>, placed: State)
    requires Reaches(EMPTY, events, s) && Crowd(s, scope, count)
    ensures Reaches(EMPTY, longer, placed) && Prepared(s, placed, scope, limit, count)
    ensures forall e <- longer :: e in events || e.SessionUpserted? || e == PlacingOf(Decimal.Print(count), scope, limit)
  {
    var player := Decimal.Print(count);
    var known := s.(store := s.store.(sessions := s.store.sessions[player := SessionOf(player)]));
    longer := Advance(EMPTY, events, s, SessionUpserted(SessionOf(player)), known);
    placed := known.(store := known.store.(contexts := known.store.contexts[player := Place(player, scope, limit)]));
    NewcomerIsPlaced(known, scope, limit, count, placed);
    longer := Advance(EMPTY, longer, known, PlacingOf(player, scope, limit), placed);
  }

  function PlacingOf(player: Id, scope: VoiceScope, limit: Option<nat>): Event {
    MembershipUpdated(player, Place(player, scope, limit), 0, PlacementChanged, [])
  }

  ghost predicate Prepared(s: State, placed: State, scope: VoiceScope, limit: Option<nat>, count: nat) {
    var player := Decimal.Print(count);
    placed == s.(store := Store(s.store.sessions[player := SessionOf(player)],
                                s.store.contexts[player := Place(player, scope, limit)], s.store.active))
  }

  /** And joins, as its own context has room for it. */
  lemma CrowdGrows(events: seq<Event>, s: State, scope: VoiceScope, limit: Option<nat>, count: nat)
    returns (longer: seq<Event>, s': State)
    requires Reaches(EMPTY, events, s) && Crowd(s, scope, count) && (limit.Some? ==> count < limit.value)
    ensures Reaches(EMPTY, longer, s') && Crowd(s', scope, count + 1)
    ensures AllCarry(events, scope, limit) ==> AllCarry(longer, scope, limit)
    ensures WITNESS in s.store.contexts ==> WITNESS in s'.store.contexts && s'.store.contexts[WITNESS] == s.store.contexts[WITNESS]
  {
    var player := Decimal.Print(count);
    var prepared, placed := NewcomerComes(events, s, scope, limit, count);
    NewcomerIsClear(prepared, placed, scope, limit, count);
    longer, s' := StartGoesThrough(EMPTY, prepared, placed, count, StartAt(player, scope), player, player);
    StillCarry(events, prepared, longer, scope, limit, PlacingOf(player, scope, limit));
    StartedSpeaks(placed, s', count, scope, player);
    WitnessIsNobody(count + 1);
    NewcomerIsNamed(count);
    CrowdIsJoined(s, s', scope, count);
  }

  lemma NewcomerIsNamed(count: nat)
    ensures Decimal.Print(count) in Names(count + 1) && Names(count) <= Names(count + 1)
  {
    NamesCount(count);
  }

  lemma StillCarry(events: seq<Event>, prepared: seq<Event>, longer: seq<Event>, scope: VoiceScope, limit: Option<nat>, placing: Event)
    requires placing.MembershipUpdated? && placing.context == Place(placing.player, scope, limit)
    requires forall e <- prepared :: e in events || e.SessionUpserted? || e == placing
    requires forall e <- longer :: e in prepared || e.Called? || e.Stepped?
    ensures AllCarry(events, scope, limit) ==> AllCarry(longer, scope, limit)
  {
    PlaceFacts(placing.player, scope, limit);
  }

  lemma NewcomerIsPlaced(s: State, scope: VoiceScope, limit: Option<nat>, count: nat, s': State)
    requires Crowd(s, scope, count)
    requires var player := Decimal.Print(count);
      s' == s.(store := s.store.(contexts := s.store.contexts[player := Place(player, scope, limit)]))
    ensures var e := MembershipUpdated(Decimal.Print(count), Place(Decimal.Print(count), scope, limit), 0, PlacementChanged, []);
      Enabled(s, e) && Next(s, e) == s'
  {
    var player := Decimal.Print(count);
    NamesCount(count);
    WitnessIsNobody(count + 1);
    assert player in Names(count + 1);
    assert forall id <- s.store.active :: SpeaksAt(s.store.active[id], id, scope) && id != player;
    assert OfPlayer(s.store, player) == {};
    Placing(s, player, scope, limit, s');
  }

  lemma NewcomerIsClear(events: seq<Event>, s: State, scope: VoiceScope, limit: Option<nat>, count: nat)
    requires Reaches(EMPTY, events, s) && (limit.Some? ==> count < limit.value)
    requires s.store.active.Keys == Names(count) && forall id <- s.store.active :: SpeaksAt(s.store.active[id], id, scope)
    requires var player := Decimal.Print(count);
      && player in s.store.sessions && s.store.sessions[player] == SessionOf(player)
      && player in s.store.contexts && s.store.contexts[player] == Place(player, scope, limit)
    ensures var player := Decimal.Print(count);
      && Clear(s.store, StartAt(player, scope), player, player)
      && ActiveFor(s.store, Asked(s.store, StartAt(player, scope), player, player), player, player, 0).node == NodeAt(scope)
  {
    var player := Decimal.Print(count);
    StoreRun(EMPTY, events);
    NewcomerIsQuiet(s.store, scope, count);
    NewcomerHasRoom(s.store, scope, limit, count);
    PlaceIsClear(s.store, player, scope, limit, player);
  }

  lemma NewcomerIsQuiet(store: Store, scope: VoiceScope, count: nat)
    requires store.active.Keys == Names(count) && forall id <- store.active :: SpeaksAt(store.active[id], id, scope)
    ensures !Transmits(store, Decimal.Print(count)) && Decimal.Print(count) !in store.active
  {
    NamesCount(count);
  }

  lemma NewcomerHasRoom(store: Store, scope: VoiceScope, limit: Option<nat>, count: nat)
    requires Coherent(store)
    requires store.active.Keys == Names(count) && forall id <- store.active :: SpeaksAt(store.active[id], id, scope)
    ensures |SpeakersBeside(store, Place(Decimal.Print(count), scope, limit).snapshot.memberships[0], scope)| == count
  {
    NamesCount(count);
    PlaceFacts(Decimal.Print(count), scope, limit);
    SpeakersBesideAreSpeakers(store, Place(Decimal.Print(count), scope, limit).snapshot.memberships[0], scope);
    assert Speakers(store, scope, NodeAt(scope)) == Names(count);
  }

  /** The newcomer speaks as well, at the same node. */
  lemma StartedSpeaks(s: State, s': State, n: nat, scope: VoiceScope, player: Id)
    requires Clear(s.store, StartAt(player, scope), player, player) && Started(s, s', n, StartAt(player, scope), player, player)
    requires ActiveFor(s.store, Asked(s.store, StartAt(player, scope), player, player), player, player, 0).node == NodeAt(scope)
    ensures Joined(s, s', n, scope, player) && s'.store.contexts == s.store.contexts
  {}

  ghost predicate Joined(s: State, s': State, n: nat, scope: VoiceScope, player: Id) {
    && s'.store.active.Keys == s.store.active.Keys + {player} && SpeaksAt(s'.store.active[player], player, scope)
    && (forall id <- s.store.active :: id != player ==> s'.store.active[id] == s.store.active[id])
    && s'.generated == s.generated + {player} && s'.calls.Keys == s.calls.Keys + {n}
  }

  lemma CrowdIsJoined(s: State, s': State, scope: VoiceScope, count: nat)
    requires Crowd(s, scope, count) && Joined(s, s', count, scope, Decimal.Print(count))
    requires s'.store.contexts.Keys == s.store.contexts.Keys + {Decimal.Print(count)}
    ensures Crowd(s', scope, count + 1)
  {
    NamesCount(count);
    OneMoreSpeaks(s, s', count, scope, Names(count), Decimal.Print(count));
  }

  lemma OneMoreSpeaks(s: State, s': State, n: nat, scope: VoiceScope, names: set<Id>, player: Id)
    requires CrowdOf(s, scope, names) && Joined(s, s', n, scope, player)
    requires s'.store.contexts.Keys == s.store.contexts.Keys + {player}
    ensures CrowdOf(s', scope, names + {player})
  {}

  lemma {:induction false} CrowdGathers(events: seq<Event>, s: State, scope: VoiceScope, limit: Option<nat>, count: nat, all: nat)
    returns (longer: seq<Event>, s': State)
    requires Reaches(EMPTY, events, s) && Crowd(s, scope, count) && count <= all && (limit.Some? ==> all <= limit.value)
    ensures Reaches(EMPTY, longer, s') && Crowd(s', scope, all)
    ensures AllCarry(events, scope, limit) ==> AllCarry(longer, scope, limit)
    ensures WITNESS in s.store.contexts ==> WITNESS in s'.store.contexts && s'.store.contexts[WITNESS] == s.store.contexts[WITNESS]
    decreases all - count
  {
    longer, s' := events, s;
    if count < all {
      longer, s' := CrowdGrows(events, s, scope, limit, count);
      longer, s' := CrowdGathers(longer, s', scope, limit, count + 1, all);
    }
  }

  lemma CrowdExceeds(s: State, scope: VoiceScope, limit: nat)
    requires Crowd(s, scope, limit + 1)
    ensures !Within(s.store, map[scope := limit])
  {
    NamesCount(limit + 1);
    CrowdSpeaks(s, scope, limit + 1);
    assert |Speakers(s.store, scope, NodeAt(scope))| > map[scope := limit][scope];
  }

  /** For every limit, contexts that all carry a larger one, or none, let a node exceed it. */
  lemma LargerLimitExceeds(scope: VoiceScope, limit: nat, larger: Option<nat>) returns (events: seq<Event>)
    requires larger.Some? ==> limit < larger.value
    ensures Init(EMPTY) && CanRun(EMPTY, events) && AllCarry(events, scope, larger)
    ensures !Within(Run(EMPTY, events).store, map[scope := limit])
  {
    var s: State;
    events, s := CrowdGathers([], EMPTY, scope, larger, 0, limit + 1);
    CrowdExceeds(s, scope, limit);
  }

  /** For every limit that a stored context carries, others that carry a larger one, or none, let its node exceed it. */
  lemma UnsharedLimitIsExceeded(scope: VoiceScope, limit: nat, larger: Option<nat>) returns (events: seq<Event>)
    requires larger.Some? ==> limit < larger.value
    ensures Init(EMPTY) && CanRun(EMPTY, events)
    ensures var end := Run(EMPTY, events);
      WITNESS in end.store.contexts && Carries(end.store.contexts[WITNESS], scope, Some(limit)) && !Within(end.store, map[scope := limit])
  {
    var s := EMPTY.(store := EMPTY.store.(contexts := map[WITNESS := Place(WITNESS, scope, Some(limit))]));
    Placing(EMPTY, WITNESS, scope, Some(limit), s);
    PlaceFacts(WITNESS, scope, Some(limit));
    events := Advance(EMPTY, [], EMPTY, MembershipUpdated(WITNESS, Place(WITNESS, scope, Some(limit)), 0, PlacementChanged, []), s);
    events, s := CrowdGathers(events, s, scope, larger, 0, limit + 1);
    CrowdExceeds(s, scope, limit);
  }

  /** Every run whose contexts all carry this limit, or none, keeps a scope within another one. */
  ghost predicate KeepsWithin(scope: VoiceScope, carried: Option<nat>, limit: nat) {
    forall events :: CanRun(EMPTY, events) && AllCarry(events, scope, carried) ==> Within(Run(EMPTY, events).store, map[scope := limit])
  }

  /** Speakers stay within a limit in all runs exactly if the limit the contexts carry is no larger. */
  lemma SpeakerLimitHoldsExactly(scope: VoiceScope, carried: Option<nat>, limit: nat)
    ensures KeepsWithin(scope, carried, limit) <==> carried.Some? && carried.value <= limit
  {
    if carried.Some? && carried.value <= limit {
      forall events | CanRun(EMPTY, events) && AllCarry(events, scope, carried)
        ensures Within(Run(EMPTY, events).store, map[scope := limit])
      {
        CarriedLimitHolds(events, scope, carried, limit);
      }
    } else {
      var events := LargerLimitExceeds(scope, limit, carried);
    }
  }

  lemma CarriedLimitHolds(events: seq<Event>, scope: VoiceScope, carried: Option<nat>, limit: nat)
    requires CanRun(EMPTY, events) && AllCarry(events, scope, carried) && carried.Some? && carried.value <= limit
    ensures Within(Run(EMPTY, events).store, map[scope := limit])
  {
    var limits := map[scope := limit];
    forall e <- events | e.MembershipUpdated? ensures AtMost(e.context, limits) {
      assert Carries(e.context, scope, carried);
    }
    assert forall other, node :: Speakers(EMPTY.store, other, node) == {};
    ControlPlaneRights.SpeakerLimitHolds(EMPTY, events, limits);
  }
}
