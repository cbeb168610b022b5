/**
 * Runs of the transmission service over the store: commands interleave at every locked section, and the voice
 * service's revocations and the audit records made outside the lock are pending steps of their own.
 */
module ControlPlaneRuns {
  import opened Basics
  import opened Domain
  import opened VoiceGrants
  import opened ControlPlaneStore
  import Routing
  import WhoHears

  datatype Operation = Starting | Ending | Moderation | Timeout | SessionLifecycle | MembershipChange

  datatype AuditEvent =
    | StartRecorded(transmission: Active)
    | EndRecorded(ended: Ended)
    | InterruptionRecorded(ended: Ended, operation: Operation)
    | RejectionRecorded(call: nat, operation: Operation)

  datatype What = Start(clientId: Id, scope: VoiceScope, membershipVersion: nat) | End(id: Id) | Moderate(id: Id)
  datatype Command = Command(session: Id, device: Id, now: Time, what: What)

  /** How far a command has come: each position is followed by one locked section or one outside verdict. */
  datatype Progress =
    | Finding
    | Limiting(player: Id)
    | Authorizing
    | Resolving(player: Id)
    | Activating(t: Authorized)
    | Judging(player: Id)
    | Halting
    | Accepted
    | Rejected

  datatype Call = Call(command: Command, progress: Progress)

  /** A permission to publish at the voice service. */
  datatype Right = Right(room: string, player: Id)

  datatype State = State(
    store: Store,
    rights: set<Right>,
    revocations: seq<Ended>,     // ends whose observer call is still to come
    shadowed: set<Id>,           // transmissions granted while such a call for the same right was still to come
    generated: set<Id>,
    begun: set<Id>,
    calls: map<nat, Call>,
    pending: seq<AuditEvent>,    // events still to be recorded
    log: seq<AuditEvent>)

  /** An outside verdict (rate limit, moderation right, publication grant) and the next transmission id. */
  datatype Choice = Choice(good: bool, id: Id)

  function RightOf(a: Active): Right { Right(RoomName(a.authorization.scope, a.node), a.authorization.sender) }

  function OperationOf(what: What): Operation {
    match what
    case Start(_, _, _) => Starting
    case End(_) => Ending
    case Moderate(_) => Moderation
  }

  /** The player of a command's session, if the session is known, bound to the device and unexpired. */
  function SessionPlayer(store: Store, command: Command): Option<Id> {
    if command.session in store.sessions && store.sessions[command.session].device == command.device
       && ActiveAt(store.sessions[command.session], command.now)
    then Some(store.sessions[command.session].player)
    else None
  }

  function Move(s: State, n: nat, progress: Progress): State
    requires n in s.calls
  {
    s.(calls := s.calls[n := s.calls[n].(progress := progress)])
  }

  function Refuse(s: State, n: nat): State
    requires n in s.calls
  {
    Move(s, n, Rejected).(pending := s.pending + [RejectionRecorded(n, OperationOf(s.calls[n].command.what))])
  }

  /** A transmission stopped by a command: it is revoked under the same lock. */
  function Halt(s: State, n: nat, id: Id, event: AuditEvent): State
    requires n in s.calls && id in s.store.active
  {
    Move(s, n, Accepted).(
      store := Without(s.store, {id}),
      rights := s.rights - {RightOf(s.store.active[id])},
      pending := s.pending + [event])
  }

  ghost predicate Shadows(revocations: seq<Ended>, right: Right) {
    exists e :: e in revocations && RightOf(e.transmission) == right
  }

  ghost function ActivatingStep(s: State, n: nat, t: Authorized, granted: bool): State
    requires n in s.calls
  {
    var command := s.calls[n].command;
    var (store, r) := ActivateSection(s.store, t, command.session, command.device, command.now, granted);
    if r.NotActivated? then Refuse(s, n)
    else
      Move(s, n, Accepted).(
        store := store,
        rights := s.rights + {RightOf(r.transmission)},
        shadowed := if Shadows(s.revocations, RightOf(r.transmission)) then s.shadowed + {t.id} else s.shadowed,
        begun := s.begun + {t.id},
        pending := s.pending + [StartRecorded(r.transmission)])
  }

  ghost function ResolvingStep(s: State, n: nat, player: Id, id: Id): State
    requires n in s.calls && s.calls[n].command.what.Start?
  {
    var what := s.calls[n].command.what;
    if player !in s.store.contexts then Refuse(s, n)
    else
      var context := s.store.contexts[player];
      var request := Routing.Request(player, what.scope, what.membershipVersion);
      if Routing.Obstacle(context.snapshot, context.policy, request).Some? then Refuse(s, n)
      else
        var recipients := Routing.Recipients(context.policy, Find(context.snapshot, player).value, what.scope, [],
                                             context.snapshot.memberships);
        Move(s, n, Activating(Authorized(id, what.clientId, player, what.scope, context.snapshot.version, recipients)))
        .(generated := s.generated + {id})
  }

  ghost function HaltingStep(s: State, n: nat): State
    requires n in s.calls && !s.calls[n].command.what.Start?
  {
    var command := s.calls[n].command;
    var id := command.what.id;
    if command.what.End? then
      if EndObstacle(s.store, id, command.session, command.device).Some? then Refuse(s, n)
      else Halt(s, n, id, EndRecorded(Ended(s.store.active[id], PushToTalkReleased, command.now)))
    else if id !in s.store.active then Refuse(s, n)
    else Halt(s, n, id, InterruptionRecorded(Ended(s.store.active[id], ModerationInterrupted, command.now), Moderation))
  }

  ghost function CallStep(s: State, n: nat, choice: Choice): State
    requires n in s.calls && WellPlaced(s.calls[n])
  {
    var what := s.calls[n].command.what;
    match s.calls[n].progress
    case Finding =>
      (match SessionPlayer(s.store, s.calls[n].command)
       case None => Refuse(s, n)
       case Some(player) => Move(s, n, if what.Moderate? then Judging(player) else Limiting(player)))
    case Limiting(player) =>
      if !choice.good then Refuse(s, n) else Move(s, n, if what.Start? then Authorizing else Halting)
    case Authorizing =>
      (match SessionPlayer(s.store, s.calls[n].command)
       case None => Refuse(s, n)
       case Some(player) => Move(s, n, Resolving(player)))
    case Resolving(player) => ResolvingStep(s, n, player, choice.id)
    case Activating(t) => ActivatingStep(s, n, t, choice.good)
    case Judging(player) => if !choice.good then Refuse(s, n) else Move(s, n, Halting)
    case Halting => HaltingStep(s, n)
    case Accepted => s
    case Rejected => s
  }

  predicate WellPlaced(call: Call) {
    match call.progress
    case Authorizing => call.command.what.Start?
    case Resolving(_) => call.command.what.Start?
    case Activating(_) => call.command.what.Start?
    case Limiting(_) => !call.command.what.Moderate?
    case Judging(_) => call.command.what.Moderate?
    case Halting => !call.command.what.Start?
    case _ => true
  }

  function EndsOf(active: map<Id, Active>, order: seq<Id>, reason: StopReason, now: Time): seq<Ended>
    requires forall id <- order :: id in active
  {
    seq(|order|, i requires 0 <= i < |order| => Ended(active[order[i]], reason, now))
  }

  function Interruptions(ended: seq<Ended>, operation: Operation): seq<AuditEvent> {
    seq(|ended|, i requires 0 <= i < |ended| => InterruptionRecorded(ended[i], operation))
  }

  /** Transmissions taken away together: erased under the lock, revoked and recorded later. */
  function Forced(s: State, store: Store, order: seq<Id>, reason: StopReason, now: Time, operation: Operation): State
    requires forall id <- order :: id in s.store.active
  {
    var ended := EndsOf(s.store.active, order, reason, now);
    s.(store := store, revocations := s.revocations + ended, pending := s.pending + Interruptions(ended, operation))
  }

  datatype Event =
    | Called(n: nat, command: Command)
    | Stepped(n: nat, choice: Choice)
    | Expired(maximum: Time, now: Time, order: seq<Id>)
    | SessionUpserted(upserted: Session)
    | SessionRemoved(session: Id, now: Time, order: seq<Id>)
    | MembershipUpdated(player: Id, context: Context, now: Time, change: ContextChange, order: seq<Id>)
    | MembershipRemoved(player: Id, now: Time, order: seq<Id>)
    | Revoked(i: nat)
    | Recorded(i: nat)

  /** Which transmissions an event takes away together. */
  function Gone(s: State, e: Event): set<Id> {
    match e
    case Expired(maximum, now, _) => Overdue(s.store, maximum, now)
    case SessionRemoved(session, _, _) => if session in s.store.sessions then OfSession(s.store, session) else {}
    case MembershipUpdated(player, context, _, _, _) =>
      if UpdateObstacle(s.store, player, context).Some? then {} else OfPlayer(s.store, player)
    case MembershipRemoved(player, _, _) => OfPlayer(s.store, player)
    case _ => {}
  }

  /** `order` lists what goes, each transmission once. */
  predicate Orders(order: seq<Id>, gone: set<Id>) { multiset(order) == multiset(gone) }

  lemma OrdersSame(order: seq<Id>, gone: set<Id>, id: Id)
    requires Orders(order, gone)
    ensures id in order <==> id in gone
  {
    assert id in order <==> id in multiset(order);
  }

  ghost predicate Enabled(s: State, e: Event) {
    match e
    case Called(n, _) => n !in s.calls
    case Stepped(n, choice) =>
      n in s.calls && WellPlaced(s.calls[n]) && (s.calls[n].progress.Resolving? ==> choice.id !in s.generated)
    case Expired(_, _, order) => Orders(order, Gone(s, e)) && Listed(s, order)
    case SessionUpserted(_) => true
    case SessionRemoved(_, _, order) => Orders(order, Gone(s, e)) && Listed(s, order)
    case MembershipUpdated(_, _, _, _, order) => Orders(order, Gone(s, e)) && Listed(s, order)
    case MembershipRemoved(_, _, order) => Orders(order, Gone(s, e)) && Listed(s, order)
    case Revoked(i) => i < |s.revocations|
    case Recorded(i) => i < |s.pending|
  }

  predicate Listed(s: State, order: seq<Id>) { forall id <- order :: id in s.store.active }

  ghost function Next(s: State, e: Event): State
    requires Enabled(s, e)
  {
    match e
    case Called(n, command) => s.(calls := s.calls[n := Call(command, Finding)])
    case Stepped(n, choice) => CallStep(s, n, choice)
    case Expired(maximum, now, order) => Forced(s, Without(s.store, Gone(s, e)), order, TimedOut, now, Timeout)
    case SessionUpserted(session) => s.(store := UpsertSessionSection(s.store, session))
    case SessionRemoved(session, now, order) =>
      Forced(s, RemoveSessionSection(s.store, session), order, Disconnected, now, SessionLifecycle)
    case MembershipUpdated(player, context, now, change, order) =>
      Forced(s, UpdateSection(s.store, player, context), order, ReasonFor(change), now, MembershipChange)
    case MembershipRemoved(player, now, order) =>
      Forced(s, RemoveMembershipSection(s.store, player), order, MembershipChanged, now, MembershipChange)
    case Revoked(i) =>
      s.(rights := s.rights - {RightOf(s.revocations[i].transmission)},
         revocations := s.revocations[..i] + s.revocations[i + 1..])
    case Recorded(i) =>
      s.(log := s.log + [s.pending[i]], pending := s.pending[..i] + s.pending[i + 1..])
  }

  ghost predicate Init(s: State) {
    && s.store == Store(map[], map[], map[]) && s.rights == {} && s.revocations == [] && s.shadowed == {}
    && s.generated == {} && s.begun == {} && s.calls == map[] && s.pending == [] && s.log == []
  }

  ghost predicate CanRun(s: State, events: seq<Event>)
    decreases |events|
  {
    events == [] || (Enabled(s, events[0]) && CanRun(Next(s, events[0]), events[1..]))
  }

  ghost function Run(s: State, events: seq<Event>): State
    requires CanRun(s, events)
    decreases |events|
  {
    if events == [] then s else Run(Next(s, events[0]), events[1..])
  }

  // ---------------------------------------------------------------- the store over runs

  /** The transmission of every activation under way has an id of its own that never began. */
  ghost predicate Fresh(s: State) {
    && (forall n <- s.calls :: s.calls[n].progress.Activating? ==>
          s.calls[n].progress.t.id in s.generated && s.calls[n].progress.t.id !in s.begun)
    && (forall n <- s.calls, m <- s.calls :: SameId(s.calls[n].progress, s.calls[m].progress) ==> n == m)
    && s.begun <= s.generated
    && s.store.active.Keys <= s.begun
  }

  predicate SameId(p: Progress, q: Progress) { p.Activating? && q.Activating? && p.t.id == q.t.id }

  lemma ForcedStore(s: State, e: Event)
    requires Enabled(s, e) && !e.Called? && !e.Stepped? && !e.Revoked? && !e.Recorded? && !e.SessionUpserted?
    ensures Next(s, e).store.active == s.store.active - Gone(s, e)
  {
    assert s.store.active - {} == s.store.active;
  }

  lemma StoreNext(s: State, e: Event)
    requires Enabled(s, e) && Inv(s.store)
    ensures Inv(Next(s, e).store)
  {
    match e
    case Stepped(n, choice) =>
      var command := s.calls[n].command;
      if s.calls[n].progress.Activating? {
        ActivateKeepsInv(s.store, s.calls[n].progress.t, command.session, command.device, command.now, choice.good);
      } else if s.calls[n].progress == Halting {
        WithoutKeepsInv(s.store, {command.what.id});
      }
    case Expired(maximum, now, _) => WithoutKeepsInv(s.store, Gone(s, e));
    case SessionRemoved(session, _, _) => RemoveSessionKeepsInv(s.store, session);
    case MembershipUpdated(player, context, _, _, _) => UpdateKeepsInv(s.store, player, context);
    case MembershipRemoved(player, _, _) => RemoveMembershipKeepsInv(s.store, player);
    case _ =>
  }

  /** A call moves on; if it is then about to activate, its id is new. */
  lemma FreshMoves(s: State, s': State, n: nat)
    requires Fresh(s) && n in s.calls && s'.calls.Keys == s.calls.Keys && s.generated <= s'.generated
    requires forall m <- s.calls :: m != n ==> s'.calls[m] == s.calls[m]
    requires s'.calls[n].progress.Activating? ==>
      s'.calls[n].progress.t.id !in s.generated && s'.calls[n].progress.t.id in s'.generated && s'.begun == s.begun
    requires s'.begun <= s.begun || (s.calls[n].progress.Activating? && s'.begun <= s.begun + {s.calls[n].progress.t.id})
    requires s'.store.active.Keys <= s'.begun
    ensures Fresh(s')
  {
    forall i <- s'.calls, j <- s'.calls | SameId(s'.calls[i].progress, s'.calls[j].progress) ensures i == j {
      assert i != n && j != n ==> SameId(s.calls[i].progress, s.calls[j].progress);
    }
    forall m <- s'.calls | s'.calls[m].progress.Activating? ensures s'.calls[m].progress.t.id !in s'.begun {
      assert m != n && s.calls[n].progress.Activating? ==> !SameId(s.calls[m].progress, s.calls[n].progress);
    }
  }

  lemma FreshStep(s: State, n: nat, choice: Choice)
    requires Enabled(s, Stepped(n, choice)) && Fresh(s)
    ensures Fresh(CallStep(s, n, choice))
  {
    FreshMoves(s, CallStep(s, n, choice), n);
  }

  lemma FreshNext(s: State, e: Event)
    requires Enabled(s, e) && Fresh(s)
    ensures Fresh(Next(s, e))
  {
    if e.Stepped? {
      FreshStep(s, e.n, e.choice);
    } else if !e.Called? && !e.Revoked? && !e.Recorded? && !e.SessionUpserted? {
      ForcedStore(s, e);
    }
  }

  /**
   * Over every run: transmissions are filed under their ids, no sender has two, each is current with its sender's
   * membership, and its session is still there.
   */
  lemma {:induction false} StoreRun(s: State, events: seq<Event>)
    requires Inv(s.store) && Fresh(s) && CanRun(s, events)
    ensures Inv(Run(s, events).store) && Fresh(Run(s, events))
    decreases |events|
  {
    if events != [] {
      StoreNext(s, events[0]);
      FreshNext(s, events[0]);
      StoreRun(Next(s, events[0]), events[1..]);
    }
  }
}
