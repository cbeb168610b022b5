/** Audit conservation: what the audit log holds about every transmission and every rejected command, over whole runs. */
module ControlPlaneAudit {
  import opened Basics
  import opened Domain
  import opened VoiceGrants
  import opened ControlPlaneStore
  import opened ControlPlaneRuns

  /** What an audit event says, and about what. */
  datatype Kind = Began(id: Id) | Over(id: Id) | TurnedAway(call: nat)

  function KindOf(e: AuditEvent): Kind {
    match e
    case StartRecorded(a) => Began(a.authorization.id)
    case EndRecorded(ended) => Over(ended.transmission.authorization.id)
    case InterruptionRecorded(ended, _) => Over(ended.transmission.authorization.id)
    case RejectionRecorded(n, _) => TurnedAway(n)
  }

  function Count(events: seq<AuditEvent>, kind: Kind): nat {
    if events == [] then 0
    else Count(events[..|events| - 1], kind) + if KindOf(events[|events| - 1]) == kind then 1 else 0
  }

  lemma {:induction false} CountConcat(a: seq<AuditEvent>, b: seq<AuditEvent>, kind: Kind)
    ensures Count(a + b, kind) == Count(a, kind) + Count(b, kind)
  {
    if b == [] {
      assert a + b == a;
    } else {
      CountConcat(a, b[..|b| - 1], kind);
      assert (a + b)[..|a + b| - 1] == a + b[..|b| - 1];
    }
  }

  lemma CountOne(e: AuditEvent, kind: Kind)
    ensures Count([e], kind) == if KindOf(e) == kind then 1 else 0
  {
    assert [e][..0] == [];
  }

  /** Events of a kind, recorded or still to be recorded. */
  function Total(s: State, kind: Kind): nat { Count(s.log, kind) + Count(s.pending, kind) }

  lemma TotalMore(s: State, s': State, more: seq<AuditEvent>, kind: Kind)
    requires s'.log == s.log && s'.pending == s.pending + more
    ensures Total(s', kind) == Total(s, kind) + Count(more, kind)
  {
    CountConcat(s.pending, more, kind);
  }

  /** Recording an event loses none. */
  lemma RecordingKeepsTotal(s: State, i: nat, kind: Kind)
    requires Enabled(s, Recorded(i))
    ensures Total(Next(s, Recorded(i)), kind) == Total(s, kind)
  {
    var e, before, after := s.pending[i], s.pending[..i], s.pending[i + 1..];
    assert s.pending == before + [e] + after;
    CountConcat(before + [e], after, kind);
    CountConcat(before, [e], kind);
    CountConcat(before, after, kind);
    CountConcat(s.log, [e], kind);
  }

  /** The interruptions of a forced end are one for each transmission that goes. */
  lemma {:induction false} InterruptionsCount(active: map<Id, Active>, order: seq<Id>, reason: StopReason, now: Time,
                                              operation: Operation, kind: Kind)
    requires forall id <- order :: id in active && active[id].authorization.id == id
    ensures Count(Interruptions(EndsOf(active, order, reason, now), operation), kind)
      == if kind.Over? then multiset(order)[kind.id] else 0
  {
    if order != [] {
      var front, last := order[..|order| - 1], order[|order| - 1];
      InterruptionsCount(active, front, reason, now, operation, kind);
      InterruptionsSplit(active, order, reason, now, operation);
      var event := InterruptionRecorded(Ended(active[last], reason, now), operation);
      CountConcat(Interruptions(EndsOf(active, front, reason, now), operation), [event], kind);
      CountOne(event, kind);
      assert order == front + [last];
    }
  }

  lemma InterruptionsSplit(active: map<Id, Active>, order: seq<Id>, reason: StopReason, now: Time, operation: Operation)
    requires order != [] && forall id <- order :: id in active
    ensures var front := order[..|order| - 1]; var last := order[|order| - 1];
      Interruptions(EndsOf(active, order, reason, now), operation) ==
      Interruptions(EndsOf(active, front, reason, now), operation)
      + [InterruptionRecorded(Ended(active[last], reason, now), operation)]
  {}

  // ---------------------------------------------------------------- the invariant, one transmission or call at a time

  /** One start event if the transmission began, and one terminal event once it is no longer active. */
  predicate TransmissionAudited(s: State, id: Id) {
    && Total(s, Began(id)) == (if id in s.begun then 1 else 0)
    && Total(s, Over(id)) == (if id in s.begun && id !in s.store.active then 1 else 0)
  }

  predicate CallAudited(s: State, n: nat) {
    Total(s, TurnedAway(n)) == if n in s.calls && s.calls[n].progress == Rejected then 1 else 0
  }

  lemma RefuseAudited(s: State, n: nat, id: Id, m: nat)
    requires n in s.calls && s.calls[n].progress != Rejected
    requires TransmissionAudited(s, id) && CallAudited(s, m)
    ensures TransmissionAudited(Refuse(s, n), id) && CallAudited(Refuse(s, n), m)
  {
    var event := RejectionRecorded(n, OperationOf(s.calls[n].command.what));
    TotalMore(s, Refuse(s, n), [event], Began(id));
    TotalMore(s, Refuse(s, n), [event], Over(id));
    TotalMore(s, Refuse(s, n), [event], TurnedAway(m));
    CountOne(event, Began(id));
    CountOne(event, Over(id));
    CountOne(event, TurnedAway(m));
  }

  lemma MoveAudited(s: State, n: nat, progress: Progress, id: Id, m: nat)
    requires n in s.calls && s.calls[n].progress != Rejected && progress != Rejected
    requires TransmissionAudited(s, id) && CallAudited(s, m)
    ensures TransmissionAudited(Move(s, n, progress), id) && CallAudited(Move(s, n, progress), m)
  {}

  lemma ActivatingAudited(s: State, n: nat, t: Authorized, granted: bool, id: Id, m: nat)
    requires n in s.calls && s.calls[n].progress != Rejected && t.id !in s.begun && s.store.active.Keys <= s.begun
    requires TransmissionAudited(s, id) && CallAudited(s, m)
    ensures TransmissionAudited(ActivatingStep(s, n, t, granted), id) && CallAudited(ActivatingStep(s, n, t, granted), m)
  {
    var command := s.calls[n].command;
    var r := ActivateSection(s.store, t, command.session, command.device, command.now, granted).1;
    if r.NotActivated? {
      RefuseAudited(s, n, id, m);
    } else {
      var s', event := ActivatingStep(s, n, t, granted), StartRecorded(r.transmission);
      TotalMore(s, s', [event], Began(id));
      TotalMore(s, s', [event], Over(id));
      TotalMore(s, s', [event], TurnedAway(m));
      CountOne(event, Began(id));
      CountOne(event, Over(id));
      CountOne(event, TurnedAway(m));
    }
  }

  lemma HaltAudited(s: State, n: nat, gone: Id, event: AuditEvent, id: Id, m: nat)
    requires n in s.calls && s.calls[n].progress != Rejected
    requires gone in s.store.active && gone in s.begun && KindOf(event) == Over(gone)
    requires TransmissionAudited(s, id) && CallAudited(s, m)
    ensures TransmissionAudited(Halt(s, n, gone, event), id) && CallAudited(Halt(s, n, gone, event), m)
  {
    var s' := Halt(s, n, gone, event);
    TotalMore(s, s', [event], Began(id));
    TotalMore(s, s', [event], Over(id));
    TotalMore(s, s', [event], TurnedAway(m));
    CountOne(event, Began(id));
    CountOne(event, Over(id));
    CountOne(event, TurnedAway(m));
  }

  lemma HaltingAudited(s: State, n: nat, id: Id, m: nat)
    requires n in s.calls && s.calls[n].progress == Halting && !s.calls[n].command.what.Start?
    requires Keyed(s.store) && s.store.active.Keys <= s.begun
    requires TransmissionAudited(s, id) && CallAudited(s, m)
    ensures TransmissionAudited(HaltingStep(s, n), id) && CallAudited(HaltingStep(s, n), m)
  {
    var command := s.calls[n].command;
    var gone := command.what.id;
    if HaltingStep(s, n) == Refuse(s, n) {
      RefuseAudited(s, n, id, m);
    } else {
      var event := if command.what.End? then EndRecorded(Ended(s.store.active[gone], PushToTalkReleased, command.now))
                   else InterruptionRecorded(Ended(s.store.active[gone], ModerationInterrupted, command.now), Moderation);
      HaltAudited(s, n, gone, event, id, m);
    }
  }

  lemma CallAuditedNext(s: State, n: nat, choice: Choice, id: Id, m: nat)
    requires Keyed(s.store) && Fresh(s) && Enabled(s, Stepped(n, choice))
    requires TransmissionAudited(s, id) && CallAudited(s, m)
    ensures TransmissionAudited(CallStep(s, n, choice), id) && CallAudited(CallStep(s, n, choice), m)
  {
    match s.calls[n].progress
    case Activating(t) => ActivatingAudited(s, n, t, choice.good, id, m);
    case Halting => HaltingAudited(s, n, id, m);
    case Accepted =>
    case Rejected =>
    case _ =>
      RefuseAudited(s, n, id, m);
      if CallStep(s, n, choice) != Refuse(s, n) {
        MoveAudited(s, n, CallStep(s, n, choice).calls[n].progress, id, m);
      }
  }

  lemma ForcedAudited(s: State, s': State, order: seq<Id>, gone: set<Id>, reason: StopReason, now: Time,
                      operation: Operation, id: Id, m: nat)
    requires Keyed(s.store) && s.store.active.Keys <= s.begun && Listed(s, order) && Orders(order, gone)
    requires s' == Forced(s, s'.store, order, reason, now, operation) && s'.store.active == s.store.active - gone
    requires TransmissionAudited(s, id) && CallAudited(s, m)
    ensures TransmissionAudited(s', id) && CallAudited(s', m)
  {
    var events := Interruptions(EndsOf(s.store.active, order, reason, now), operation);
    TotalMore(s, s', events, Began(id));
    TotalMore(s, s', events, Over(id));
    TotalMore(s, s', events, TurnedAway(m));
    InterruptionsCount(s.store.active, order, reason, now, operation, Began(id));
    InterruptionsCount(s.store.active, order, reason, now, operation, Over(id));
    InterruptionsCount(s.store.active, order, reason, now, operation, TurnedAway(m));
    OrdersSame(order, gone, id);
  }

  lemma AuditedNext(s: State, e: Event, id: Id, m: nat)
    requires Keyed(s.store) && Fresh(s) && Enabled(s, e)
    requires TransmissionAudited(s, id) && CallAudited(s, m)
    ensures TransmissionAudited(Next(s, e), id) && CallAudited(Next(s, e), m)
  {
    match e
    case Called(n, _) =>
    case Stepped(n, choice) => CallAuditedNext(s, n, choice, id, m);
    case Expired(_, now, order) =>
      ForcedStore(s, e);
      ForcedAudited(s, Next(s, e), order, Gone(s, e), TimedOut, now, Timeout, id, m);
    case SessionUpserted(_) =>
    case SessionRemoved(_, now, order) =>
      ForcedStore(s, e);
      ForcedAudited(s, Next(s, e), order, Gone(s, e), Disconnected, now, SessionLifecycle, id, m);
    case MembershipUpdated(_, _, now, change, order) =>
      ForcedStore(s, e);
      ForcedAudited(s, Next(s, e), order, Gone(s, e), ReasonFor(change), now, MembershipChange, id, m);
    case MembershipRemoved(_, now, order) =>
      ForcedStore(s, e);
      ForcedAudited(s, Next(s, e), order, Gone(s, e), MembershipChanged, now, MembershipChange, id, m);
    case Revoked(_) =>
    case Recorded(i) =>
      RecordingKeepsTotal(s, i, Began(id));
      RecordingKeepsTotal(s, i, Over(id));
      RecordingKeepsTotal(s, i, TurnedAway(m));
  }

  lemma {:induction false} AuditRun(s: State, events: seq<Event>, id: Id, m: nat)
    requires Inv(s.store) && Fresh(s) && CanRun(s, events)
    requires TransmissionAudited(s, id) && CallAudited(s, m)
    ensures TransmissionAudited(Run(s, events), id) && CallAudited(Run(s, events), m)
    decreases |events|
  {
    if events != [] {
      AuditedNext(s, events[0], id, m);
      StoreNext(s, events[0]);
      FreshNext(s, events[0]);
      AuditRun(Next(s, events[0]), events[1..], id, m);
    }
  }

  /**
   * Conservation.  Once all events are recorded, every transmission that began has exactly one start event and, exactly
   * if it is no longer active, exactly one terminal event; every rejected command has exactly one rejection event.
   */
  lemma AuditConservation(s: State, events: seq<Event>, id: Id, n: nat)
    requires Init(s) && CanRun(s, events) && Run(s, events).pending == []
    ensures var end := Run(s, events);
      && Count(end.log, Began(id)) == (if id in end.begun then 1 else 0)
      && Count(end.log, Over(id)) == (if id in end.begun && id !in end.store.active then 1 else 0)
      && Count(end.log, TurnedAway(n)) == (if n in end.calls && end.calls[n].progress == Rejected then 1 else 0)
  {
    AuditRun(s, events, id, n);
  }

  /** A command that is turned away changes no transmission and no right to publish. */
  lemma RejectionChangesNothing(s: State, n: nat, choice: Choice)
    requires Enabled(s, Stepped(n, choice)) && CallStep(s, n, choice).calls[n].progress == Rejected
    ensures CallStep(s, n, choice).store == s.store && CallStep(s, n, choice).rights == s.rights
  {}
}
