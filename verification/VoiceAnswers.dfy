/** What the voice client's operations answer, and which scope it names as being on air. */
module VoiceAnswers {
  import opened Basics
  import opened VoiceClient

  // ---------------------------------------------------------------- the scope on air

  /** The scope of the latest request to start the microphone; `last` is the one before this event. */
  function StartedScope(s: State, e: Event, last: Option<VoiceScope>): Option<VoiceScope>
    requires Enabled(s, e)
  {
    if e.Stepped? && s.threads[e.t].PressStart? then Some(s.threads[e.t].scope) else last
  }

  function LatestScope(s: State, events: seq<Event>, last: Option<VoiceScope>): Option<VoiceScope>
    requires CanRun(s, events)
    decreases |events|
  {
    if events == [] then last else LatestScope(Next(s, events[0]), events[1..], StartedScope(s, events[0], last))
  }

  /** No scope is named while a press is under way, and a press that has started has started its own scope. */
  predicate StartFits(f: Fields, pc: Pc, last: Option<VoiceScope>) {
    && (IsPresser(pc) ==> f.activeScope.None?)
    && (pc.PressCheck? ==> last == Some(pc.scope))
  }

  ghost predicate NamesLatest(s: State, last: Option<VoiceScope>) {
    && (s.fields.activeScope.Some? ==> s.fields.activeScope == last)
    && forall t <- s.threads :: StartFits(s.fields, s.threads[t], last)
  }

  /** A thread's step leaves itself and everybody else in step with the scope started last. */
  lemma SectionNamesLatest(f: Fields, microphone: bool, pc: Pc, choice: Choice, other: Pc, last: Option<VoiceScope>)
    requires Fits(f, pc) && Fits(f, other) && !(IsOwner(pc) && IsOwner(other))
    requires StartFits(f, pc, last) && StartFits(f, other, last) && (f.activeScope.Some? ==> f.activeScope == last)
    ensures var section := PcSection(f, microphone, pc, choice);
      var now := if pc.PressStart? then Some(pc.scope) else last;
      && StartFits(section.fields, section.next, now)
      && StartFits(section.fields, if section.notify then Wake(other) else other, now)
      && (section.fields.activeScope.Some? ==> section.fields.activeScope == now)
  {}

  lemma StepNamesLatest(s: State, t: Tid, choice: Choice, last: Option<VoiceScope>)
    requires Inv(s) && t in s.threads && NamesLatest(s, last)
    ensures NamesLatest(Step(s, t, choice), StartedScope(s, Stepped(t, choice), last))
  {
    var s' := Step(s, t, choice);
    var pc := s.threads[t];
    assert Fits(s.fields, pc) && StartFits(s.fields, pc, last);
    SectionNamesLatest(s.fields, s.microphone, pc, choice, Outside, last);
    EnterOwners(s, t, PcSection(s.fields, s.microphone, pc, choice));
    forall u <- s'.threads ensures StartFits(s'.fields, s'.threads[u], StartedScope(s, Stepped(t, choice), last)) {
      if u != t {
        assert Fits(s.fields, s.threads[u]) && StartFits(s.fields, s.threads[u], last);
        SectionNamesLatest(s.fields, s.microphone, pc, choice, s.threads[u], last);
      }
    }
  }

  lemma NextNamesLatest(s: State, e: Event, last: Option<VoiceScope>)
    requires Inv(s) && Enabled(s, e) && NamesLatest(s, last)
    ensures NamesLatest(Next(s, e), StartedScope(s, e, last))
  {
    var s' := Next(s, e);
    if e.Stepped? {
      StepNamesLatest(s, e.t, e.choice, last);
    } else {
      forall u <- s'.threads ensures StartFits(s'.fields, s'.threads[u], last) {
        assert StartFits(s.fields, s.threads[u], last);
      }
    }
  }

  lemma {:induction false} RunNamesLatest(s: State, events: seq<Event>, last: Option<VoiceScope>)
    requires Inv(s) && CanRun(s, events) && NamesLatest(s, last)
    ensures NamesLatest(Run(s, events), LatestScope(s, events, last))
    decreases |events|
  {
    if events != [] {
      NextNamesLatest(s, events[0], last);
      NextInv(s, events[0]);
      RunNamesLatest(Next(s, events[0]), events[1..], StartedScope(s, events[0], last));
    }
  }

  /** Whatever scope the client names as transmitting, its microphone was started for that scope last. */
  lemma NamedScopeIsLatest(s: State, events: seq<Event>)
    requires Init(s) && CanRun(s, events)
    ensures var f := Run(s, events).fields; f.activeScope.Some? ==> f.activeScope == LatestScope(s, events, None)
  {
    InitInv(s);
    RunNamesLatest(s, events, None);
  }

  /** A publication that is active is connected and names its scope. */
  predicate OnAir(f: Fields) { f.publication == Active ==> f.connection == Connected && f.activeScope.Some? }

  /**
   * A disconnect ends, or a connect fails, although a press has become active in the meantime.  A transport that reports its
   * disconnection before it answers, as the LiveKit one does, has ended the publication by then.
   */
  predicate Overtakes(s: State, e: Event)
    requires Enabled(s, e)
  {
    e.Stepped? && s.fields.publication == Active && (s.threads[e.t].CloseFinish? || s.threads[e.t].ConnectFail?)
  }

  /** Only such an event can make an active publication lose its scope or its connection, and it always does. */
  lemma OnAirExactly(s: State, e: Event)
    requires Inv(s) && Enabled(s, e) && OnAir(s.fields)
    ensures OnAir(Next(s, e).fields) <==> !Overtakes(s, e)
  {
    if e.Stepped? { assert Fits(s.fields, s.threads[e.t]); }
  }

  predicate Orderly(s: State, events: seq<Event>)
    requires CanRun(s, events)
    decreases |events|
  {
    events == [] || (!Overtakes(s, events[0]) && Orderly(Next(s, events[0]), events[1..]))
  }

  lemma {:induction false} OnAirRun(s: State, events: seq<Event>)
    requires Inv(s) && CanRun(s, events) && OnAir(s.fields) && Orderly(s, events)
    ensures OnAir(Run(s, events).fields)
    decreases |events|
  {
    if events != [] {
      OnAirExactly(s, events[0]);
      NextInv(s, events[0]);
      OnAirRun(Next(s, events[0]), events[1..]);
    }
  }

  /** In orderly runs an active publication is connected and names the scope its microphone was started for. */
  lemma ActiveScopeIsLatest(s: State, events: seq<Event>)
    requires Init(s) && CanRun(s, events) && Orderly(s, events) && Run(s, events).fields.publication == Active
    ensures var f := Run(s, events).fields;
      && f.connection == Connected && f.activeScope.Some?
      && f.activeScope == LatestScope(s, events, None)
  {
    InitInv(s);
    OnAirRun(s, events);
    NamedScopeIsLatest(s, events);
  }

  // A transport that does not: thread 0 connects, thread 1 disconnects, and thread 0 presses before the disconnect is through.

  const ANY: Choice := Choice(Good, true)

  function Two(f: Fields, microphone: bool, first: Pc, second: Pc): State {
    State(f, microphone, false, map[0 := first, 1 := second])
  }

  const START: State := Two(INITIAL_FIELDS, false, Outside, Outside)

  ghost predicate Reaches(events: seq<Event>, end: State) { CanRun(START, events) && Run(START, events) == end }

  lemma {:induction false} RunThen(s: State, events: seq<Event>, e: Event)
    requires CanRun(s, events) && Enabled(Run(s, events), e)
    ensures CanRun(s, events + [e]) && Run(s, events + [e]) == Next(Run(s, events), e)
    decreases |events|
  {
    if events == [] {
      assert events + [e] == [e];
    } else {
      RunThen(Next(s, events[0]), events[1..], e);
      assert (events + [e])[1..] == events[1..] + [e];
    }
  }

  lemma FirstCalls(events: seq<Event>, f: Fields, microphone: bool, first: Pc, second: Pc, entry: Pc) returns (longer: seq<Event>)
    requires Reaches(events, Two(f, microphone, first, second)) && !InCall(first) && IsEntry(entry)
    ensures Reaches(longer, Two(f, microphone, entry, second))
  {
    RunThen(START, events, Called(0, entry));
    assert map[0 := first, 1 := second][0 := entry] == map[0 := entry, 1 := second];
    longer := events + [Called(0, entry)];
  }

  lemma FirstStep(f: Fields, microphone: bool, first: Pc, second: Pc)
    requires !second.ReleaseWait? && !PcBreaks(microphone, first, ANY)
    ensures var s, section := Two(f, microphone, first, second), PcSection(f, microphone, first, ANY);
      && Enabled(s, Stepped(0, ANY))
      && Next(s, Stepped(0, ANY)) == Two(section.fields, PcMicrophone(microphone, first, ANY), section.next, second)
  {
    var next := PcSection(f, microphone, first, ANY).next;
    assert Next(Two(f, microphone, first, second), Stepped(0, ANY)).threads == map[0 := next, 1 := second];
  }

  lemma FirstSteps(events: seq<Event>, f: Fields, microphone: bool, first: Pc, second: Pc, g: Fields, after: bool, next: Pc)
    returns (longer: seq<Event>)
    requires Reaches(events, Two(f, microphone, first, second)) && !second.ReleaseWait?
    requires var section := PcSection(f, microphone, first, ANY); section.fields == g && section.next == next
    requires PcMicrophone(microphone, first, ANY) == after && !PcBreaks(microphone, first, ANY)
    ensures Reaches(longer, Two(g, after, next, second))
  {
    FirstStep(f, microphone, first, second);
    RunThen(START, events, Stepped(0, ANY));
    longer := events + [Stepped(0, ANY)];
  }

  lemma SecondStep(f: Fields, microphone: bool, first: Pc, second: Pc)
    requires !first.ReleaseWait? && !PcBreaks(microphone, second, ANY)
    ensures var s, section := Two(f, microphone, first, second), PcSection(f, microphone, second, ANY);
      && Enabled(s, Stepped(1, ANY))
      && Next(s, Stepped(1, ANY)) == Two(section.fields, PcMicrophone(microphone, second, ANY), first, section.next)
  {
    var next := PcSection(f, microphone, second, ANY).next;
    assert Next(Two(f, microphone, first, second), Stepped(1, ANY)).threads == map[0 := first, 1 := next];
  }

  lemma SecondSteps(events: seq<Event>, f: Fields, microphone: bool, first: Pc, second: Pc, g: Fields, after: bool, next: Pc)
    returns (longer: seq<Event>)
    requires Reaches(events, Two(f, microphone, first, second)) && !first.ReleaseWait?
    requires var section := PcSection(f, microphone, second, ANY); section.fields == g && section.next == next
    requires PcMicrophone(microphone, second, ANY) == after && !PcBreaks(microphone, second, ANY)
    ensures Reaches(longer, Two(g, after, first, next))
  {
    SecondStep(f, microphone, first, second);
    RunThen(START, events, Stepped(1, ANY));
    longer := events + [Stepped(1, ANY)];
  }

  const LINKING := Fields(Connecting, Idle, 0, None, Good)
  const UP := Fields(Connected, Idle, 0, None, Good)
  const OPENING := Fields(Connected, Starting, 1, None, Good)
  const LIVE := Fields(Connected, Active, 1, Some(Group), Good)

  lemma ToConnected() returns (events: seq<Event>)
    ensures Reaches(events, Two(UP, false, Returned(Good), Outside))
  {
    events := FirstCalls([], INITIAL_FIELDS, false, Outside, Outside, ConnectEnter);
    events := FirstSteps(events, INITIAL_FIELDS, false, ConnectEnter, Outside, LINKING, false, ConnectTransport);
    events := FirstSteps(events, LINKING, false, ConnectTransport, Outside, LINKING, false, Returned(Good));
    RunThen(START, events, Reported(Connected, true));
    events := events + [Reported(Connected, true)];
  }

  lemma ToClosing() returns (events: seq<Event>)
    ensures Reaches(events, Two(UP, false, Returned(Good), CloseTransport))
  {
    events := ToConnected();
    RunThen(START, events, Called(1, CloseEnter));
    assert map[0 := Returned(Good), 1 := Outside][1 := CloseEnter] == map[0 := Returned(Good), 1 := CloseEnter];
    events := events + [Called(1, CloseEnter)];
    events := SecondSteps(events, UP, false, Returned(Good), CloseEnter, UP, false, ReleaseEnter(true));
    events := SecondSteps(events, UP, false, Returned(Good), ReleaseEnter(true), UP, false, CloseTransport);
  }

  lemma ToLive() returns (events: seq<Event>)
    ensures Reaches(events, Two(LIVE, true, Returned(Good), CloseTransport))
  {
    events := ToClosing();
    events := FirstCalls(events, UP, false, Returned(Good), CloseTransport, PressEnter(Group));
    events := FirstSteps(events, UP, false, PressEnter(Group), CloseTransport, OPENING, false, PressStart(1, Group));
    events := FirstSteps(events, OPENING, false, PressStart(1, Group), CloseTransport, OPENING, true, PressCheck(1, Group, Good));
    events := FirstSteps(events, OPENING, true, PressCheck(1, Group, Good), CloseTransport, LIVE, true, Returned(Good));
  }

  /** The disconnect leaves the publication active, without its scope and without a connection. */
  lemma OvertakenPublication() returns (events: seq<Event>)
    ensures Init(START) && CanRun(START, events) && !Orderly(START, events)
    ensures var f := Run(START, events).fields;
      f.publication == Active && f.connection == Disconnected && f.activeScope.None?
  {
    events := ToLive();
    events := SecondSteps(events, LIVE, true, Returned(Good), CloseTransport, LIVE, false, CloseFinish);
    events := SecondSteps(events, LIVE, false, Returned(Good), CloseFinish, LIVE.(connection := Disconnected, activeScope := None), false,
                          Returned(Good));
    if Orderly(START, events) {
      InitInv(START);
      OnAirRun(START, events);
    }
  }

  // ---------------------------------------------------------------- what a thread has heard from the transport

  /** The transport's answer to what a thread standing at `pc` asks of it, if it asks anything. */
  function TransportAnswer(microphone: bool, pc: Pc, choice: Choice): seq<Outcome> {
    if pc.PressStart? || pc.ConnectTransport? || pc.CloseTransport? then [choice.outcome]
    else if pc.PressStop? || pc.ReleaseStop? then [StopOutcome(microphone, choice)]
    else []
  }

  /** All that thread `t` has heard, `before` included. */
  function Heard(s: State, events: seq<Event>, t: Tid, before: seq<Outcome>): seq<Outcome>
    requires CanRun(s, events) && t in s.threads
    decreases |events|
  {
    if events == [] then before
    else
      var e := events[0];
      KeepsThreads(s, e);
      Heard(Next(s, e), events[1..], t,
            if e.Stepped? && e.t == t then before + TransportAnswer(s.microphone, s.threads[t], e.choice) else before)
  }

  lemma KeepsThreads(s: State, e: Event)
    requires Enabled(s, e)
    ensures Next(s, e).threads.Keys == s.threads.Keys
  {
    if e.Stepped? { OthersOnlyWake(s, e.t, e.choice); }
  }

  lemma {:induction false} RunKeepsThreads(s: State, events: seq<Event>)
    requires CanRun(s, events)
    ensures Run(s, events).threads.Keys == s.threads.Keys
    decreases |events|
  {
    if events != [] {
      KeepsThreads(s, events[0]);
      RunKeepsThreads(Next(s, events[0]), events[1..]);
    }
  }

  /** Thread `t` starts no further operation. */
  predicate OneCall(events: seq<Event>, t: Tid) { forall e <- events :: !(e.Called? && e.t == t) }

  /** How the position of `t` changes in one event that is not its next call. */
  lemma PositionChanges(s: State, e: Event, t: Tid)
    requires Enabled(s, e) && t in s.threads && !(e.Called? && e.t == t)
    ensures var s' := Next(s, e);
      && t in s'.threads
      && if e.Stepped? && e.t == t
         then s'.threads[t] == PcSection(s.fields, s.microphone, s.threads[t], e.choice).next
         else s'.threads[t] == s.threads[t] || s'.threads[t] == Wake(s.threads[t])
  {
    if e.Stepped? { EnterOwners(s, e.t, PcSection(s.fields, s.microphone, s.threads[e.t], e.choice)); }
  }

  // ---------------------------------------------------------------- the answer of a press

  /**
   * A press answers the failure of its start; else the failure of taking the microphone back; else that it was refused or
   * cancelled, or success.
   */
  predicate PressAnswers(heard: seq<Outcome>, result: Outcome) {
    || (heard == [] && result == InvalidState)
    || (|heard| == 1 && (result == heard[0] || (heard[0] == Good && result == InvalidState)))
    || (|heard| == 2 && heard[0] != Good && result == heard[0])
    || (|heard| == 2 && heard[0] == Good && result == if heard[1] == Broken then Broken else InvalidState)
  }

  /** What a presser carries along is what it has heard; a stop with nothing to stop is no failure. */
  predicate PressHeard(pc: Pc, heard: seq<Outcome>) {
    match pc
    case PressEnter(_) => heard == []
    case PressStart(_, _) => heard == []
    case PressCheck(_, _, started) => heard == [started]
    case PressQuery(_, started) => heard == [started]
    case PressStop(_, started) => heard == [started]
    case PressFinish(_, started, stopped) =>
      || (heard == [started] && stopped == Good)
      || (|heard| == 2 && heard[0] == started && stopped == if heard[1] == InvalidState then Good else heard[1])
    case Returned(result) => PressAnswers(heard, result)
    case _ => false
  }

  lemma PressHears(f: Fields, microphone: bool, pc: Pc, choice: Choice, heard: seq<Outcome>)
    requires PressHeard(pc, heard)
    ensures PressHeard(PcSection(f, microphone, pc, choice).next, heard + TransportAnswer(microphone, pc, choice))
  {
    assert heard + [] == heard;
  }

  lemma {:induction false} PressRun(s: State, events: seq<Event>, t: Tid, heard: seq<Outcome>)
    requires CanRun(s, events) && t in s.threads && PressHeard(s.threads[t], heard) && OneCall(events, t)
    ensures var s' := Run(s, events); t in s'.threads && PressHeard(s'.threads[t], Heard(s, events, t, heard))
    decreases |events|
  {
    if events != [] {
      var e := events[0];
      PositionChanges(s, e, t);
      if e.Stepped? && e.t == t {
        PressHears(s.fields, s.microphone, s.threads[t], e.choice, heard);
        PressRun(Next(s, e), events[1..], t, heard + TransportAnswer(s.microphone, s.threads[t], e.choice));
      } else {
        PressRun(Next(s, e), events[1..], t, heard);
      }
    }
  }

  /** However a press is interleaved, its answer follows from what the transport told it. */
  lemma PressIsAnswered(s: State, events: seq<Event>, t: Tid)
    requires CanRun(s, events) && t in s.threads && s.threads[t].PressEnter? && OneCall(events, t)
    ensures var s' := Run(s, events);
      t in s'.threads && (s'.threads[t].Returned? ==> PressAnswers(Heard(s, events, t, []), s'.threads[t].result))
  {
    PressRun(s, events, t, []);
  }

  /** A press goes on from its first section exactly on a connected, idle client, and then as a new generation. */
  lemma PressBeginsExactly(s: State, t: Tid, choice: Choice)
    requires t in s.threads && s.threads[t].PressEnter?
    ensures var s' := Step(s, t, choice);
      if s.fields.connection == Connected && s.fields.publication == Idle
      then s'.threads[t] == PressStart(s.fields.generation + 1, s.threads[t].scope)
        && s'.fields.generation == s.fields.generation + 1 && s'.fields.publication == Starting
        && s'.fields.connection == Connected
      else s'.threads[t] == Returned(InvalidState) && s'.fields == s.fields
  {}

  /** It answers success exactly in the step in which its own, still connected, publication becomes active. */
  lemma PressSucceedsExactly(s: State, t: Tid, choice: Choice)
    requires Inv(s) && t in s.threads && (s.threads[t].PressEnter? || IsPresser(s.threads[t]))
    ensures var s' := Step(s, t, choice);
      && (s'.threads[t] == Returned(Good) <==> s.fields.publication == Starting && s'.fields.publication == Active)
      && (s'.threads[t] == Returned(Good) ==>
            && s.threads[t].PressCheck? && s.threads[t].started == Good && s.fields.connection == Connected
            && s'.fields == s.fields.(publication := Active, activeScope := Some(s.threads[t].scope)))
  {
    assert Fits(s.fields, s.threads[t]);
  }

  /** A started press is cancelled exactly if a release or a lost connection came before it could become active. */
  lemma PressIsConfirmedExactly(s: State, t: Tid, choice: Choice)
    requires Inv(s) && t in s.threads && s.threads[t].PressCheck? && s.threads[t].started == Good
    ensures Step(s, t, choice).threads[t] == Returned(Good)
       <==> s.fields.publication == Starting && s.fields.connection == Connected
    ensures Step(s, t, choice).threads[t] != Returned(Good) ==> Step(s, t, choice).threads[t].PressStop?
  {
    assert Fits(s.fields, s.threads[t]);
  }

  /** A press that withdraws tells the releases waiting for it whether the microphone was silenced. */
  lemma PressWithdraws(s: State, t: Tid, events: seq<Event>, choice: Choice)
    requires Inv(s) && CanRun(s, events) && t in s.threads && s.threads[t].PressEnter? && OneCall(events, t)
    requires t in Run(s, events).threads && Run(s, events).threads[t].PressFinish?
    ensures var heard := Heard(s, events, t, []);
      var s' := Step(Run(s, events), t, choice);
      && |heard| >= 1 && s'.fields.publication == Idle && s'.fields.activeScope.None?
      && s'.fields.lastStop == if |heard| == 2 && heard[1] != InvalidState then heard[1] else Good
  {
    PressRun(s, events, t, []);
    RunInv(s, events);
    assert Fits(Run(s, events).fields, Run(s, events).threads[t]);
  }

  // ---------------------------------------------------------------- the answer of a release

  /** A release, alone or for a disconnect, carries along what it has heard; only a broken stop keeps a disconnect from going on. */
  predicate ReleaseHeard(pc: Pc, closing: bool, heard: seq<Outcome>) {
    match pc
    case ReleaseStop(_, c) => c == closing && heard == []
    case ReleaseFinish(_, c, stopped) => c == closing && heard == [stopped]
    case CloseTransport => closing && |heard| == 1 && heard[0] != Broken
    case CloseFinish => closing && |heard| == 2 && heard[0] != Broken && heard[1] == Good
    case Returned(result) =>
      || (heard == [result] && (closing ==> result == Broken))
      || (closing && |heard| == 2 && heard[0] != Broken && heard[1] == result)
    case _ => false
  }

  lemma ReleaseHears(f: Fields, microphone: bool, pc: Pc, choice: Choice, closing: bool, heard: seq<Outcome>)
    requires ReleaseHeard(pc, closing, heard)
    ensures ReleaseHeard(PcSection(f, microphone, pc, choice).next, closing, heard + TransportAnswer(microphone, pc, choice))
  {
    assert heard + [] == heard;
  }

  lemma {:induction false} ReleaseRun(s: State, events: seq<Event>, t: Tid, closing: bool, heard: seq<Outcome>)
    requires CanRun(s, events) && t in s.threads && ReleaseHeard(s.threads[t], closing, heard) && OneCall(events, t)
    ensures var s' := Run(s, events); t in s'.threads && ReleaseHeard(s'.threads[t], closing, Heard(s, events, t, heard))
    decreases |events|
  {
    if events != [] {
      var e := events[0];
      PositionChanges(s, e, t);
      if e.Stepped? && e.t == t {
        ReleaseHears(s.fields, s.microphone, s.threads[t], e.choice, closing, heard);
        ReleaseRun(Next(s, e), events[1..], t, closing, heard + TransportAnswer(s.microphone, s.threads[t], e.choice));
      } else {
        ReleaseRun(Next(s, e), events[1..], t, closing, heard);
      }
    }
  }

  /** The releaser that stops the microphone answers as the transport did; a disconnect answers its stop or its own end. */
  lemma ReleaseIsAnswered(s: State, events: seq<Event>, t: Tid)
    requires CanRun(s, events) && t in s.threads && s.threads[t].ReleaseStop? && OneCall(events, t)
    requires t in Run(s, events).threads && Run(s, events).threads[t].Returned?
    ensures var heard, result := Heard(s, events, t, []), Run(s, events).threads[t].result;
      if s.threads[t].closing
      then (heard == [Broken] && result == Broken) || (|heard| == 2 && heard[0] != Broken && result == heard[1])
      else heard == [result]
  {
    ReleaseRun(s, events, t, s.threads[t].closing, []);
  }

  /** When it is done, the publication is idle and its answer stands as that of the last stop. */
  lemma ReleaseRecordsAnswer(s: State, events: seq<Event>, t: Tid, choice: Choice)
    requires Inv(s) && CanRun(s, events) && t in s.threads && s.threads[t].ReleaseStop? && OneCall(events, t)
    requires t in Run(s, events).threads && Run(s, events).threads[t].ReleaseFinish?
    ensures var heard := Heard(s, events, t, []);
      var s' := Step(Run(s, events), t, choice);
      && |heard| == 1
      && s'.fields == Run(s, events).fields.(publication := Idle, activeScope := None, lastStop := heard[0])
      && s'.threads[t] == if s.threads[t].closing && heard[0] != Broken then CloseTransport else Returned(heard[0])
  {
    ReleaseRun(s, events, t, s.threads[t].closing, []);
    RunInv(s, events);
    assert Fits(Run(s, events).fields, Run(s, events).threads[t]);
  }

  /** A release of nothing is refused; one of a press under way waits; only that of an active publication stops it itself. */
  lemma ReleaseBegins(s: State, t: Tid, choice: Choice)
    requires t in s.threads && s.threads[t] == ReleaseEnter(false)
    ensures var f, s' := s.fields, Step(s, t, choice);
      && (f.publication == Idle <==> s'.threads[t] == Returned(InvalidState))
      && (f.publication == Active <==> s'.threads[t] == ReleaseStop(f.generation, false))
      && (InTransition(f) <==> s'.threads[t] == ReleaseWait(f.generation, false, true))
      && s'.fields == if f.publication == Idle then f else f.(publication := Stopping)
  {}

  // ---------------------------------------------------------------- what waiting releases are told

  /** What a generation left behind stays until the next press begins. */
  lemma RestStays(s: State, e: Event)
    requires Inv(s) && Enabled(s, e) && s.fields.publication == Idle
    ensures var f := Next(s, e).fields;
      && f.generation >= s.fields.generation
      && (f.generation == s.fields.generation ==> f.publication == Idle && f.lastStop == s.fields.lastStop)
  {
    if e.Stepped? { assert Fits(s.fields, s.threads[e.t]); }
  }

  lemma GenerationGrows(s: State, e: Event)
    requires Inv(s) && Enabled(s, e)
    ensures Next(s, e).fields.generation >= s.fields.generation
  {}

  lemma {:induction false} RunGrows(s: State, events: seq<Event>)
    requires Inv(s) && CanRun(s, events)
    ensures Run(s, events).fields.generation >= s.fields.generation
    decreases |events|
  {
    if events != [] {
      GenerationGrows(s, events[0]);
      NextInv(s, events[0]);
      RunGrows(Next(s, events[0]), events[1..]);
    }
  }

  lemma {:induction false} RestStaysRun(s: State, events: seq<Event>)
    requires Inv(s) && CanRun(s, events) && s.fields.publication == Idle
    requires Run(s, events).fields.generation == s.fields.generation
    ensures Run(s, events).fields.publication == Idle && Run(s, events).fields.lastStop == s.fields.lastStop
    decreases |events|
  {
    if events != [] {
      RestStays(s, events[0]);
      NextInv(s, events[0]);
      RunGrows(Next(s, events[0]), events[1..]);
      RestStaysRun(Next(s, events[0]), events[1..]);
    }
  }

  /** A release that waited for a generation and returns before the next press is told how that generation was stopped. */
  lemma {:induction false} WaiterIsTold(s: State, events: seq<Event>, t: Tid)
    requires Inv(s) && CanRun(s, events) && t in s.threads && OneCall(events, t)
    requires s.fields.publication == Idle && Run(s, events).fields.generation == s.fields.generation
    requires s.threads[t].ReleaseWait? && s.threads[t].generation == s.fields.generation && !s.threads[t].closing
    ensures var s' := Run(s, events);
      && t in s'.threads
      && if Turns(events, t) == 0 then s'.threads[t] == s.threads[t] || s'.threads[t] == Wake(s.threads[t])
         else s'.threads[t] == Returned(s.fields.lastStop)
    decreases |events|
  {
    if events != [] {
      var e := events[0];
      assert Fits(s.fields, s.threads[t]);
      PositionChanges(s, e, t);
      NextInv(s, e);
      RestStays(s, e);
      RunGrows(Next(s, e), events[1..]);
      if e.Stepped? && e.t == t {
        StaysReturned(Next(s, e), events[1..], t);
      } else {
        WaiterIsTold(Next(s, e), events[1..], t);
      }
    }
  }

  lemma {:induction false} StaysReturned(s: State, events: seq<Event>, t: Tid)
    requires CanRun(s, events) && t in s.threads && OneCall(events, t) && s.threads[t].Returned?
    ensures t in Run(s, events).threads && Run(s, events).threads[t] == s.threads[t]
    decreases |events|
  {
    if events != [] {
      PositionChanges(s, events[0], t);
      StaysReturned(Next(s, events[0]), events[1..], t);
    }
  }

  /** A press under way has wiped out the answer of the stop before it. */
  predicate Fresh(f: Fields) { f.publication == Starting ==> f.lastStop == Good }

  lemma FreshNext(s: State, e: Event)
    requires Inv(s) && Enabled(s, e) && Fresh(s.fields)
    ensures Fresh(Next(s, e).fields)
  {}

  lemma {:induction false} FreshRun(s: State, events: seq<Event>)
    requires Inv(s) && CanRun(s, events) && Fresh(s.fields)
    ensures Fresh(Run(s, events).fields)
    decreases |events|
  {
    if events != [] {
      FreshNext(s, events[0]);
      NextInv(s, events[0]);
      FreshRun(Next(s, events[0]), events[1..]);
    }
  }

  /** So a release that wakes only while the next press is starting is told success, however its own stop ended. */
  lemma LateWaiterIsToldSuccess(s: State, events: seq<Event>, t: Tid, choice: Choice)
    requires Init(s) && CanRun(s, events)
    requires var s' := Run(s, events);
      && t in s'.threads && s'.threads[t].ReleaseWait? && !s'.threads[t].closing && !s'.threads[t].asleep
      && s'.threads[t].generation != s'.fields.generation && s'.fields.publication == Starting
    ensures Step(Run(s, events), t, choice).threads[t] == Returned(Good)
  {
    InitInv(s);
    FreshRun(s, events);
  }

  // ---------------------------------------------------------------- connecting, disconnecting and reports

  predicate ConnectHeard(pc: Pc, heard: seq<Outcome>) {
    match pc
    case ConnectEnter => heard == []
    case ConnectTransport => heard == []
    case ConnectFail(error) => heard == [error] && error != Good
    case Returned(result) => (heard == [] && result == InvalidState) || heard == [result]
    case _ => false
  }

  lemma {:induction false} ConnectIsAnswered(s: State, events: seq<Event>, t: Tid, heard: seq<Outcome>)
    requires CanRun(s, events) && t in s.threads && ConnectHeard(s.threads[t], heard) && OneCall(events, t)
    ensures var s' := Run(s, events); t in s'.threads && ConnectHeard(s'.threads[t], Heard(s, events, t, heard))
    decreases |events|
  {
    if events != [] {
      var e := events[0];
      PositionChanges(s, e, t);
      if e.Stepped? && e.t == t {
        assert heard + [] == heard;
        ConnectIsAnswered(Next(s, e), events[1..], t, heard + TransportAnswer(s.microphone, s.threads[t], e.choice));
      } else {
        ConnectIsAnswered(Next(s, e), events[1..], t, heard);
      }
    }
  }

  /** Connecting is for a disconnected client only; a failure leaves it disconnected. */
  lemma ConnectSteps(s: State, t: Tid, choice: Choice)
    requires t in s.threads
    ensures var f, s' := s.fields, Step(s, t, choice);
      && (s.threads[t].ConnectEnter? ==>
            if f.connection == Disconnected
            then s'.threads[t].ConnectTransport? && s'.fields == f.(connection := Connecting)
            else s'.threads[t] == Returned(InvalidState) && s'.fields == f)
      && (s.threads[t].ConnectFail? ==>
            s'.threads[t] == Returned(s.threads[t].error) && s'.fields == f.(connection := Disconnected))
  {}

  /** A disconnect that answers success leaves the client disconnected and naming no scope. */
  lemma DisconnectedOnSuccess(s: State, t: Tid, choice: Choice)
    requires t in s.threads && (s.threads[t].CloseEnter? || s.threads[t].CloseTransport? || s.threads[t].CloseFinish?)
    ensures var s' := Step(s, t, choice);
      && (s'.threads[t] == Returned(Good) ==>
            s'.fields == s.fields.(connection := Disconnected, activeScope := None))
      && (s'.threads[t].Returned? && s'.threads[t].result != Good ==> s'.fields == s.fields)
      && (s.threads[t].CloseEnter? ==> (s'.threads[t] == Returned(Good) <==> s.fields.connection == Disconnected))
  {}

  /** A lost connection ends what is active and cancels what is starting; any other report changes nothing but the state. */
  lemma ReportedState(s: State, connection: Connection, silenced: bool)
    ensures var f, g := s.fields, Report(s, connection, silenced).fields;
      && g.connection == connection && g.generation == f.generation
      && (connection == Connected ==> g == f.(connection := Connected))
      && (connection != Connected ==> g.activeScope.None? && g.publication != Active && g.publication != Starting)
      && (g.publication == f.publication <==> connection == Connected || f.publication == Idle || f.publication == Stopping)
      && (f.publication == Active && connection != Connected ==> g.publication == Idle && g.lastStop == Good)
      && (f.publication != Active ==> g.lastStop == f.lastStop)
  {}
}
