/** The client's session state machine: connection phases, one transmission at a time, and the rules that join them. */
module SessionState {
  import opened Basics

  type RequestId = string
  type TransmissionId = string
  type Version = nat

  datatype ConnectionState =
    | Disconnected | ConnectingTransport | RefreshingMembership | RestoringSubscriptions | Ready | ReconnectingTransport

  datatype TransmissionState = Idle | Requesting | Transmitting | Ending

  datatype StopReason =
    | NoReason | PushToTalkReleased | RejectedByServer | ConnectionLost | MembershipChanged | PermissionRevoked
    | TimedOut | TransportError | DisconnectedByUser

  datatype Connection = Connection(state: ConnectionState, version: Option<Version>)
  datatype Context = Context(request: RequestId, transmission: Option<TransmissionId>, scope: VoiceScope, version: Version)
  datatype Transmission = Transmission(state: TransmissionState, context: Option<Context>, lastStop: StopReason)
  datatype Session = Session(connection: Connection, transmission: Transmission, scope: VoiceScope)

  const START: Session := Session(Connection(Disconnected, None), Transmission(Idle, None, NoReason), Team)

  // ---------------------------------------------------------------- transitions: the new value and whether it was one

  function BeginConnect(c: Connection): (Connection, bool) {
    if c.state != Disconnected then (c, false) else (c.(state := ConnectingTransport), true)
  }

  function TransportConnected(c: Connection): (Connection, bool) {
    if c.state != ConnectingTransport && c.state != ReconnectingTransport then (c, false)
    else (Connection(RefreshingMembership, None), true)
  }

  function MembershipRefreshed(c: Connection, version: Version): (Connection, bool) {
    if c.state != RefreshingMembership || version == 0 then (c, false)
    else (Connection(RestoringSubscriptions, Some(version)), true)
  }

  function SubscriptionsRestored(c: Connection, version: Version): (Connection, bool) {
    if c.state != RestoringSubscriptions || c.version != Some(version) then (c, false) else (c.(state := Ready), true)
  }

  function ChangeMembership(c: Connection, version: Version): (Connection, bool) {
    if c.state != Ready || c.version.None? || version <= c.version.value then (c, false)
    else (Connection(RestoringSubscriptions, Some(version)), true)
  }

  function LoseConnection(c: Connection): (Connection, bool) {
    if c.state == Disconnected || c.state == ReconnectingTransport then (c, false)
    else (Connection(ReconnectingTransport, None), true)
  }

  function Disconnect(c: Connection): (Connection, bool) {
    if c.state == Disconnected then (c, false) else (Connection(Disconnected, None), true)
  }

  function Finished(reason: StopReason): Transmission { Transmission(Idle, None, reason) }

  function RequestStart(t: Transmission, id: RequestId, scope: VoiceScope, version: Version): (Transmission, bool) {
    if t.state != Idle || version == 0 then (t, false)
    else (Transmission(Requesting, Some(Context(id, None, scope, version)), NoReason), true)
  }

  predicate Awaits(t: Transmission, id: RequestId) {
    t.state == Requesting && t.context.Some? && t.context.value.request == id
  }

  function Accepted(t: Transmission, id: RequestId, transmission: TransmissionId): (Transmission, bool) {
    if !Awaits(t, id) then (t, false)
    else (Transmission(Transmitting, Some(t.context.value.(transmission := Some(transmission))), t.lastStop), true)
  }

  function Rejected(t: Transmission, id: RequestId): (Transmission, bool) {
    if !Awaits(t, id) then (t, false) else (Finished(RejectedByServer), true)
  }

  function RequestEnd(t: Transmission): (Transmission, bool) {
    match t.state
    case Requesting => (Finished(PushToTalkReleased), true)
    case Transmitting => (t.(state := Ending), true)
    case _ => (t, false)
  }

  function Ended(t: Transmission, transmission: TransmissionId): (Transmission, bool) {
    if t.state != Ending || t.context.None? || t.context.value.transmission != Some(transmission) then (t, false)
    else (Finished(PushToTalkReleased), true)
  }

  function Interrupt(t: Transmission, reason: StopReason): (Transmission, bool) {
    if t.state == Idle || reason == NoReason then (t, false) else (Finished(reason), true)
  }

  datatype Event =
    | SelectScope(scope: VoiceScope)
    | Connect
    | TransportUp
    | Refreshed(version: Version)
    | Restored(version: Version)
    | Changed(version: Version)
    | Lost
    | Leave
    | Request(id: RequestId)
    | Accept(id: RequestId, transmission: TransmissionId)
    | Reject(id: RequestId)
    | End
    | EndConfirmed(transmission: TransmissionId)
    | Revoke
    | TimeOut
    | TransportFail

  /** A connection change that succeeds interrupts the transmission. */
  function Interrupting(s: Session, next: (Connection, bool), reason: StopReason): (Session, bool) {
    if next.1 then (s.(connection := next.0, transmission := Interrupt(s.transmission, reason).0), true) else (s, false)
  }

  function Next(s: Session, e: Event): (Session, bool) {
    var c, t := s.connection, s.transmission;
    match e
    case SelectScope(scope) => (s.(scope := scope), true)
    case Connect => (s.(connection := BeginConnect(c).0), BeginConnect(c).1)
    case TransportUp => (s.(connection := TransportConnected(c).0), TransportConnected(c).1)
    case Refreshed(v) => (s.(connection := MembershipRefreshed(c, v).0), MembershipRefreshed(c, v).1)
    case Restored(v) => (s.(connection := SubscriptionsRestored(c, v).0), SubscriptionsRestored(c, v).1)
    case Changed(v) => Interrupting(s, ChangeMembership(c, v), MembershipChanged)
    case Lost => Interrupting(s, LoseConnection(c), ConnectionLost)
    case Leave => Interrupting(s, Disconnect(c), DisconnectedByUser)
    case Request(id) =>
      if c.state != Ready || c.version.None? then (s, false)
      else (s.(transmission := RequestStart(t, id, s.scope, c.version.value).0), RequestStart(t, id, s.scope, c.version.value).1)
    case Accept(id, transmission) =>
      (s.(transmission := Accepted(t, id, transmission).0), Accepted(t, id, transmission).1)
    case Reject(id) => (s.(transmission := Rejected(t, id).0), Rejected(t, id).1)
    case End => (s.(transmission := RequestEnd(t).0), RequestEnd(t).1)
    case EndConfirmed(transmission) => (s.(transmission := Ended(t, transmission).0), Ended(t, transmission).1)
    case Revoke => (s.(transmission := Interrupt(t, PermissionRevoked).0), Interrupt(t, PermissionRevoked).1)
    case TimeOut => (s.(transmission := Interrupt(t, TimedOut).0), Interrupt(t, TimedOut).1)
    case TransportFail => (s.(transmission := Interrupt(t, TransportError).0), Interrupt(t, TransportError).1)
  }

  // ---------------------------------------------------------------- the machines

  class ConnectionStateMachine {
    var state: ConnectionState
    var version: Option<Version>

    constructor ()
      ensures View() == START.connection
    {
      state, version := Disconnected, None;
    }

    function View(): Connection
      reads this
    {
      Connection(state, version)
    }

    method Begin() returns (done: bool)
      modifies this
      ensures (View(), done) == BeginConnect(old(View()))
    {
      if state != Disconnected { return false; }
      state := ConnectingTransport;
      return true;
    }

    method OnTransportConnected() returns (done: bool)
      modifies this
      ensures (View(), done) == TransportConnected(old(View()))
    {
      if state != ConnectingTransport && state != ReconnectingTransport { return false; }
      version := None;
      state := RefreshingMembership;
      return true;
    }

    method OnMembershipRefreshed(v: Version) returns (done: bool)
      modifies this
      ensures (View(), done) == MembershipRefreshed(old(View()), v)
    {
      if state != RefreshingMembership || v == 0 { return false; }
      version := Some(v);
      state := RestoringSubscriptions;
      return true;
    }

    method OnSubscriptionsRestored(v: Version) returns (done: bool)
      modifies this
      ensures (View(), done) == SubscriptionsRestored(old(View()), v)
    {
      if state != RestoringSubscriptions || version.None? || v != version.value { return false; }
      state := Ready;
      return true;
    }

    method OnMembershipChanged(v: Version) returns (done: bool)
      modifies this
      ensures (View(), done) == ChangeMembership(old(View()), v)
    {
      if state != Ready || version.None? || v <= version.value { return false; }
      version := Some(v);
      state := RestoringSubscriptions;
      return true;
    }

    method OnConnectionLost() returns (done: bool)
      modifies this
      ensures (View(), done) == LoseConnection(old(View()))
    {
      if state == Disconnected || state == ReconnectingTransport { return false; }
      version := None;
      state := ReconnectingTransport;
      return true;
    }

    method Close() returns (done: bool)
      modifies this
      ensures (View(), done) == Disconnect(old(View()))
    {
      if state == Disconnected { return false; }
      version := None;
      state := Disconnected;
      return true;
    }
  }

  class TransmissionStateMachine {
    var state: TransmissionState
    var context: Option<Context>
    var lastStop: StopReason

    constructor ()
      ensures View() == START.transmission
    {
      state, context, lastStop := Idle, None, NoReason;
    }

    function View(): Transmission
      reads this
    {
      Transmission(state, context, lastStop)
    }

    method Start(id: RequestId, scope: VoiceScope, v: Version) returns (done: bool)
      modifies this
      ensures (View(), done) == RequestStart(old(View()), id, scope, v)
    {
      if state != Idle || v == 0 { return false; }
      context := Some(Context(id, None, scope, v));
      lastStop := NoReason;
      state := Requesting;
      return true;
    }

    method OnAccepted(id: RequestId, transmission: TransmissionId) returns (done: bool)
      modifies this
      ensures (View(), done) == Accepted(old(View()), id, transmission)
    {
      if state != Requesting || context.None? || context.value.request != id { return false; }
      context := Some(context.value.(transmission := Some(transmission)));
      state := Transmitting;
      return true;
    }

    method OnRejected(id: RequestId) returns (done: bool)
      modifies this
      ensures (View(), done) == Rejected(old(View()), id)
    {
      if state != Requesting || context.None? || context.value.request != id { return false; }
      Finish(RejectedByServer);
      return true;
    }

    method End() returns (done: bool)
      modifies this
      ensures (View(), done) == RequestEnd(old(View()))
    {
      if state == Requesting {
        Finish(PushToTalkReleased);
        return true;
      }
      if state != Transmitting { return false; }
      state := Ending;
      return true;
    }

    method OnEnded(transmission: TransmissionId) returns (done: bool)
      modifies this
      ensures (View(), done) == Ended(old(View()), transmission)
    {
      if state != Ending || context.None? || context.value.transmission.None?
        || context.value.transmission.value != transmission
      {
        return false;
      }
      Finish(PushToTalkReleased);
      return true;
    }

    method InterruptFor(reason: StopReason) returns (done: bool)
      modifies this
      ensures (View(), done) == Interrupt(old(View()), reason)
    {
      if state == Idle || reason == NoReason { return false; }
      Finish(reason);
      return true;
    }

    method Finish(reason: StopReason)
      modifies this
      ensures View() == Finished(reason)
    {
      context := None;
      lastStop := reason;
      state := Idle;
    }
  }

  class VoiceSessionStateMachine {
    const connection: ConnectionStateMachine
    const transmission: TransmissionStateMachine
    var scope: VoiceScope

    constructor ()
      ensures View() == START && fresh(connection) && fresh(transmission)
    {
      connection := new ConnectionStateMachine();
      transmission := new TransmissionStateMachine();
      scope := Team;
    }

    function View(): Session
      reads this, connection, transmission
    {
      Session(connection.View(), transmission.View(), scope)
    }

    method Handle(e: Event) returns (done: bool)
      modifies this, connection, transmission
      ensures (View(), done) == Next(old(View()), e)
    {
      match e
      case SelectScope(selected) =>
        scope := selected;
        done := true;
      case Connect => done := connection.Begin();
      case TransportUp => done := connection.OnTransportConnected();
      case Refreshed(v) => done := connection.OnMembershipRefreshed(v);
      case Restored(v) => done := connection.OnSubscriptionsRestored(v);
      case Changed(v) =>
        done := connection.OnMembershipChanged(v);
        if done { var interrupted := transmission.InterruptFor(MembershipChanged); }
      case Lost =>
        done := connection.OnConnectionLost();
        if done { var interrupted := transmission.InterruptFor(ConnectionLost); }
      case Leave =>
        done := connection.Close();
        if done { var interrupted := transmission.InterruptFor(DisconnectedByUser); }
      case Request(id) =>
        if connection.state != Ready || connection.version.None? { return false; }
        done := transmission.Start(id, scope, connection.version.value);
      case Accept(id, accepted) => done := transmission.OnAccepted(id, accepted);
      case Reject(id) => done := transmission.OnRejected(id);
      case End => done := transmission.End();
      case EndConfirmed(ended) => done := transmission.OnEnded(ended);
      case Revoke => done := transmission.InterruptFor(PermissionRevoked);
      case TimeOut => done := transmission.InterruptFor(TimedOut);
      case TransportFail => done := transmission.InterruptFor(TransportError);
    }
  }

  // ---------------------------------------------------------------- what holds in every run

  function Run(s: Session, events: seq<Event>): Session
    decreases |events|
  {
    if events == [] then s else Run(Next(s, events[0]).0, events[1..])
  }

  predicate Inv(s: Session) {
    var c, t := s.connection, s.transmission;
    && (c.version.Some? <==> c.state == RestoringSubscriptions || c.state == Ready)
    && (c.version.Some? ==> c.version.value > 0)
    && (t.context.Some? <==> t.state != Idle)
    && (t.state != Idle ==> (t.context.value.transmission.Some? <==> t.state != Requesting))
    && (t.state != Idle ==> c.state == Ready && c.version == Some(t.context.value.version))
  }

  lemma NextInv(s: Session, e: Event)
    requires Inv(s)
    ensures Inv(Next(s, e).0)
  {}

  /** A transmission that is not idle stands on a ready connection at the same membership version. */
  lemma {:induction false} RunInv(s: Session, events: seq<Event>)
    requires Inv(s)
    ensures Inv(Run(s, events))
    decreases |events|
  {
    if events != [] {
      NextInv(s, events[0]);
      RunInv(Next(s, events[0]).0, events[1..]);
    }
  }

  lemma TransmittingMeansReady(events: seq<Event>)
    ensures var s := Run(START, events);
      s.transmission.state != Idle ==>
        s.connection.state == Ready && s.transmission.context.Some? &&
        s.connection.version == Some(s.transmission.context.value.version)
  {
    RunInv(START, events);
  }

  /** No request for a transmission among these events. */
  predicate NoRequest(events: seq<Event>) { events == [] || (!events[0].Request? && NoRequest(events[1..])) }

  lemma {:induction false} IdleStaysIdle(s: Session, events: seq<Event>)
    requires Inv(s) && s.transmission.state == Idle && NoRequest(events)
    ensures Run(s, events).transmission.state == Idle
    decreases |events|
  {
    if events != [] {
      NextInv(s, events[0]);
      IdleStaysIdle(Next(s, events[0]).0, events[1..]);
    }
  }

  /** After a loss, a disconnect or a membership change nothing is transmitted until it is requested anew. */
  lemma SilentAfterBreak(before: seq<Event>, e: Event, after: seq<Event>)
    requires e.Lost? || e.Leave? || e.Changed?
    requires Next(Run(START, before), e).1 && NoRequest(after)
    ensures Run(Next(Run(START, before), e).0, after).transmission.state == Idle
  {
    RunInv(START, before);
    NextInv(Run(START, before), e);
    IdleStaysIdle(Next(Run(START, before), e).0, after);
  }

  /** This request is not under way. */
  predicate NotUnderWay(s: Session, id: RequestId) {
    s.transmission.context.None? || s.transmission.context.value.request != id
  }

  predicate NotRequested(events: seq<Event>, id: RequestId) {
    events == [] || (events[0] != Request(id) && NotRequested(events[1..], id))
  }

  lemma {:induction false} GoneStaysGone(s: Session, events: seq<Event>, id: RequestId)
    requires Inv(s) && NotUnderWay(s, id) && NotRequested(events, id)
    ensures NotUnderWay(Run(s, events), id)
    decreases |events|
  {
    if events != [] {
      NextInv(s, events[0]);
      GoneStaysGone(Next(s, events[0]).0, events[1..], id);
    }
  }

  /** A request released before its answer is over: an acceptance that comes late is refused and changes nothing. */
  lemma LateAcceptanceNeverRevives(before: seq<Event>, id: RequestId, after: seq<Event>, transmission: TransmissionId)
    requires Awaits(Run(START, before).transmission, id) && NotRequested(after, id)
    ensures var s := Run(Next(Run(START, before), End).0, after);
      NotUnderWay(s, id) && Next(s, Accept(id, transmission)) == (s, false)
  {
    RunInv(START, before);
    NextInv(Run(START, before), End);
    GoneStaysGone(Next(Run(START, before), End).0, after, id);
  }

  /** The connection stays up: no event breaks it. */
  predicate StaysUp(s: Session, events: seq<Event>)
    decreases |events|
  {
    events == [] ||
    (!((events[0].Lost? || events[0].Leave?) && Next(s, events[0]).1) && StaysUp(Next(s, events[0]).0, events[1..]))
  }

  /** How many membership changes are taken up. */
  function ChangesTaken(s: Session, events: seq<Event>): nat
    decreases |events|
  {
    if events == [] then 0
    else (if events[0].Changed? && Next(s, events[0]).1 then 1 else 0) + ChangesTaken(Next(s, events[0]).0, events[1..])
  }

  /** Between reconnects the membership version never falls, and rises with every change that is taken up. */
  lemma {:induction false} VersionsRise(s: Session, events: seq<Event>)
    requires Inv(s) && s.connection.version.Some? && StaysUp(s, events)
    ensures Run(s, events).connection.version.Some?
    ensures Run(s, events).connection.version.value >= s.connection.version.value + ChangesTaken(s, events)
    decreases |events|
  {
    if events != [] {
      NextInv(s, events[0]);
      VersionsRise(Next(s, events[0]).0, events[1..]);
    }
  }

  /** A connection becomes ready only when the subscriptions of its current version are restored. */
  lemma ReadyOnlyWhenRestored(s: Session, e: Event)
    requires Inv(s) && s.connection.state != Ready && Next(s, e).0.connection.state == Ready
    ensures s.connection.version.Some? && e == Restored(s.connection.version.value)
  {}

  // ---------------------------------------------------------------- which events are taken up, and what they lead to

  /** Whether a consistent session takes an event up. */
  predicate Takes(s: Session, e: Event) {
    var c, t := s.connection, s.transmission;
    match e
    case SelectScope(_) => true
    case Connect => c.state == Disconnected
    case TransportUp => c.state in {ConnectingTransport, ReconnectingTransport}
    case Refreshed(v) => c.state == RefreshingMembership && v > 0
    case Restored(v) => c.state == RestoringSubscriptions && c.version == Some(v)
    case Changed(v) => c.state == Ready && c.version.Some? && c.version.value < v
    case Lost => c.state in {ConnectingTransport, RefreshingMembership, RestoringSubscriptions, Ready}
    case Leave => c.state != Disconnected
    case Request(_) => c.state == Ready && t.state == Idle
    case Accept(id, _) => t.state == Requesting && t.context.Some? && t.context.value.request == id
    case Reject(id) => t.state == Requesting && t.context.Some? && t.context.value.request == id
    case End => t.state in {Requesting, Transmitting}
    case EndConfirmed(transmission) => t.state == Ending && t.context.Some? && t.context.value.transmission == Some(transmission)
    case Revoke => t.state != Idle
    case TimeOut => t.state != Idle
    case TransportFail => t.state != Idle
  }

  /** An event is taken up exactly then; one that is not changes nothing. */
  lemma EventIsTaken(s: Session, e: Event)
    requires Inv(s)
    ensures Next(s, e).1 <==> Takes(s, e)
    ensures !Takes(s, e) ==> Next(s, e).0 == s
  {}

  /** The connection steps through transport, membership and subscriptions, one version at a time. */
  lemma ConnectionFollows(s: Session, e: Event)
    requires Inv(s) && Takes(s, e)
    ensures Next(s, e).0.connection ==
      match e
      case Connect => Connection(ConnectingTransport, None)
      case TransportUp => Connection(RefreshingMembership, None)
      case Refreshed(v) => Connection(RestoringSubscriptions, Some(v))
      case Restored(v) => Connection(Ready, Some(v))
      case Changed(v) => Connection(RestoringSubscriptions, Some(v))
      case Lost => Connection(ReconnectingTransport, None)
      case Leave => Connection(Disconnected, None)
      case _ => s.connection
  {}

  /** Whatever ends a transmission leaves its own reason; nothing else touches the reason of the last one, save a new request. */
  lemma StopReasonsFollow(s: Session, e: Event)
    requires Inv(s) && Takes(s, e)
    ensures var t, after := s.transmission, Next(s, e).0.transmission;
      if t.state == Idle then after == if e.Request? then after.(lastStop := NoReason) else t
      else if after.state == Idle then
        after == Transmission(Idle, None,
          match e
          case Changed(_) => MembershipChanged
          case Lost => ConnectionLost
          case Leave => DisconnectedByUser
          case Revoke => PermissionRevoked
          case TimeOut => TimedOut
          case TransportFail => TransportError
          case Reject(_) => RejectedByServer
          case _ => PushToTalkReleased)
      else after.lastStop == t.lastStop
    ensures s.transmission.state != Idle ==>
      e.Changed? || e.Lost? || e.Leave? || e.Revoke? || e.TimeOut? || e.TransportFail? || e.Reject? || e.EndConfirmed? ==>
        Next(s, e).0.transmission.state == Idle
  {}

  lemma {:induction false} RunMore(s: Session, events: seq<Event>, e: Event)
    ensures Run(s, events + [e]) == Next(Run(s, events), e).0
    decreases |events|
  {
    if events == [] {
      assert events + [e] == [e] && [e][1..] == [];
    } else {
      RunMore(Next(s, events[0]).0, events[1..], e);
      assert (events + [e])[1..] == events[1..] + [e];
    }
  }

  /** Connecting: every event of the regular course is taken up. */
  lemma RegularConnection(scope: VoiceScope, v: Version)
    requires v > 0
    ensures Run(START, [SelectScope(scope), Connect, TransportUp, Refreshed(v), Restored(v)])
         == Session(Connection(Ready, Some(v)), Transmission(Idle, None, NoReason), scope)
  {
    var chosen := [SelectScope(scope)];
    RunMore(START, [], SelectScope(scope));
    assert [] + chosen == chosen;
    RunMore(START, chosen, Connect);
    assert chosen + [Connect] == [SelectScope(scope), Connect];
    RunMore(START, [SelectScope(scope), Connect], TransportUp);
    assert [SelectScope(scope), Connect] + [TransportUp] == [SelectScope(scope), Connect, TransportUp];
    RunMore(START, [SelectScope(scope), Connect, TransportUp], Refreshed(v));
    assert [SelectScope(scope), Connect, TransportUp] + [Refreshed(v)] == [SelectScope(scope), Connect, TransportUp, Refreshed(v)];
    RunMore(START, [SelectScope(scope), Connect, TransportUp, Refreshed(v)], Restored(v));
    assert [SelectScope(scope), Connect, TransportUp, Refreshed(v)] + [Restored(v)]
      == [SelectScope(scope), Connect, TransportUp, Refreshed(v), Restored(v)];
  }

  /** Speaking: a request in the selected scope, at the version in use, is accepted, ended and confirmed. */
  lemma RegularTransmission(s: Session, id: RequestId, transmission: TransmissionId)
    requires Inv(s) && s.connection.state == Ready && s.transmission.state == Idle
    ensures var asked := Next(s, Request(id)); var heard := Next(asked.0, Accept(id, transmission));
      var leaving := Next(heard.0, End); var over := Next(leaving.0, EndConfirmed(transmission));
      var v := s.connection.version.value;
      && asked == (s.(transmission := Transmission(Requesting, Some(Context(id, None, s.scope, v)), NoReason)), true)
      && heard == (s.(transmission := Transmission(Transmitting, Some(Context(id, Some(transmission), s.scope, v)), NoReason)), true)
      && leaving == (s.(transmission := Transmission(Ending, Some(Context(id, Some(transmission), s.scope, v)), NoReason)), true)
      && over == (s.(transmission := Transmission(Idle, None, PushToTalkReleased)), true)
  {}
}
