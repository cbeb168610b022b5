/**
 * Runs from the start in which `endInterruptedTransmission` is called out of turn.  The first thread connects, presses and
 * releases; the second ends the transmission while the press is under way, while it is heard, or after a transport drop.
 */
module EarlyCleanup {
  import opened Basics
  import Voice = VoiceClient
  import opened AuthorizedVoiceClient

  /** Every step succeeds, and the server grants transmission 7. */
  const ALL_GOOD: Choice := Choice(Voice.Choice(Voice.Good, true), Some(7), true, Some(1), true)

  /** Two threads, the second of which never enters the voice client. */
  function Two(f: Fields, v: Voice.Fields, open: bool, log: seq<Observation>, first: Pc, at: Voice.Pc, second: Pc): State {
    State(f, Voice.State(v, open, false, map[0 := at, 1 := Voice.Outside]), map[0 := first, 1 := second], log)
  }

  // ---------------------------------------------------------------- what each event does to two threads

  lemma FirstEnters(f: Fields, v: Voice.Fields, open: bool, log: seq<Observation>, first: Pc, at: Voice.Pc, second: Pc, section: Section)
    requires !second.ReleaseWait?
    ensures Enter(Two(f, v, open, log, first, at, second), 0, section)
         == Two(section.fields, v, open, log, section.next, VoiceEntry(section.next), second)
  {
    var s' := Enter(Two(f, v, open, log, first, at, second), 0, section);
    assert s'.threads == map[0 := section.next, 1 := second];
    assert s'.voice.threads == map[0 := VoiceEntry(section.next), 1 := Voice.Outside];
  }

  /** The first thread's own step. */
  lemma FirstMoves(f: Fields, v: Voice.Fields, open: bool, log: seq<Observation>, first: Pc, at: Voice.Pc, second: Pc)
    requires (VoiceEntry(first) == Voice.Outside || at.Returned?) && !second.ReleaseWait?
    requires first.PressServer? ==> log == []
    ensures var s := Two(f, v, open, log, first, at, second);
      var section := PcSection(f, v.connection, first, at == Voice.Returned(Voice.Good), ALL_GOOD);
      && Enabled(s, Stepped(0, ALL_GOOD))
      && Next(s, Stepped(0, ALL_GOOD)) == Two(section.fields, v, open, log + PcLog(f, first, open, ALL_GOOD), section.next,
                                              VoiceEntry(section.next), second)
  {
    var section := PcSection(f, v.connection, first, at == Voice.Returned(Voice.Good), ALL_GOOD);
    FirstEnters(f, v, open, log + PcLog(f, first, open, ALL_GOOD), first, at, second, section);
  }

  /** The first thread's step in the voice client. */
  lemma FirstMovesBelow(f: Fields, v: Voice.Fields, open: bool, log: seq<Observation>, first: Pc, at: Voice.Pc, second: Pc)
    requires VoiceEntry(first) != Voice.Outside && !at.Returned?
    ensures var s := Two(f, v, open, log, first, at, second); var section := Voice.PcSection(v, open, at, ALL_GOOD.voice);
      && Enabled(s, Stepped(0, ALL_GOOD))
      && Next(s, Stepped(0, ALL_GOOD)) == Two(f, section.fields, Voice.PcMicrophone(open, at, ALL_GOOD.voice),
           if first.PressVoice? && at.PressStart? then log + [Opened(first.transmission, at.scope)] else log, first, section.next, second)
  {
    var s := Two(f, v, open, log, first, at, second);
    assert !Voice.PcBreaks(open, at, ALL_GOOD.voice);
    assert Next(s, Stepped(0, ALL_GOOD)).voice.threads
        == map[0 := Voice.PcSection(v, open, at, ALL_GOOD.voice).next, 1 := Voice.Outside];
  }

  /** The second thread ends the active transmission. */
  lemma SecondCleans(f: Fields, v: Voice.Fields, open: bool, log: seq<Observation>, first: Pc, at: Voice.Pc, transmission: Transmission)
    requires f.active == Some(transmission)
    ensures var s := Two(f, v, open, log, first, at, Clean(Alone));
      && Enabled(s, Stepped(1, ALL_GOOD))
      && Next(s, Stepped(1, ALL_GOOD)) == Two(f.(active := None), v, open,
           log + [EndAsked(transmission, open), Ended(transmission)], first, at, Done(true))
  {
    var s := Two(f, v, open, log, first, at, Clean(Alone));
    var s' := Next(s, Stepped(1, ALL_GOOD));
    OwnStepFacts(s, 1, ALL_GOOD);
    assert s'.threads == map[0 := first, 1 := Done(true)];
    assert s'.voice.threads == map[0 := at, 1 := Voice.Outside];
  }

  lemma FirstCalls(f: Fields, v: Voice.Fields, open: bool, log: seq<Observation>, first: Pc, second: Pc, entry: Pc)
    requires (first == Outside || first.Done?) && IsEntry(0, entry)
    ensures var s := Two(f, v, open, log, first, Voice.Outside, second);
      && Enabled(s, Called(0, entry))
      && Next(s, Called(0, entry)) == Two(f, v, open, log, entry, Voice.Outside, second)
  {
    var s' := Next(Two(f, v, open, log, first, Voice.Outside, second), Called(0, entry));
    assert s'.threads == map[0 := entry, 1 := second] && s'.voice.threads == map[0 := Voice.Outside, 1 := Voice.Outside];
  }

  lemma SecondCalls(f: Fields, v: Voice.Fields, open: bool, log: seq<Observation>, first: Pc, at: Voice.Pc)
    ensures var s := Two(f, v, open, log, first, at, Outside);
      && Enabled(s, Called(1, Clean(Alone)))
      && Next(s, Called(1, Clean(Alone))) == Two(f, v, open, log, first, at, Clean(Alone))
  {
    var s' := Next(Two(f, v, open, log, first, at, Outside), Called(1, Clean(Alone)));
    assert s'.threads == map[0 := first, 1 := Clean(Alone)] && s'.voice.threads == map[0 := at, 1 := Voice.Outside];
  }

  lemma TransportReports(f: Fields, v: Voice.Fields, open: bool, log: seq<Observation>, first: Pc, at: Voice.Pc, second: Pc,
                         connection: Voice.Connection)
    requires !at.ReleaseWait?
    ensures var s := Two(f, v, open, log, first, at, second);
      && Enabled(s, Reported(connection, true))
      && Next(s, Reported(connection, true)) == Two(f, Voice.StateChangedSection(v, connection).fields,
           open && connection == Voice.Connected, log, first, at, second)
  {
    var s' := Next(Two(f, v, open, log, first, at, second), Reported(connection, true));
    assert s'.voice.threads == map[0 := at, 1 := Voice.Outside];
  }

  // ---------------------------------------------------------------- runs put together

  ghost predicate Reaches(s: State, events: seq<Event>, end: State) { CanRun(s, events) && Run(s, events) == end }

  lemma {:induction false} Then(s: State, events: seq<Event>, mid: State, e: Event)
    requires Reaches(s, events, mid) && Enabled(mid, e)
    ensures Reaches(s, events + [e], Next(mid, e))
    decreases |events|
  {
    if events == [] {
      assert events + [e] == [e];
    } else {
      Then(Next(s, events[0]), events[1..], mid, e);
      assert (events + [e])[1..] == events[1..] + [e];
    }
  }

  const START: State := Two(Fields(false, None, Voice.Idle, 0, None, false, false), Voice.INITIAL_FIELDS, false, [],
                            Outside, Voice.Outside, Outside)

  lemma StartIsInitial()
    ensures Init(START)
  {}

  lemma Advance(events: seq<Event>, mid: State, e: Event, next: State) returns (longer: seq<Event>)
    requires Reaches(START, events, mid) && Enabled(mid, e) && Next(mid, e) == next
    ensures Reaches(START, longer, next)
  {
    Then(START, events, mid, e);
    longer := events + [e];
  }

  /** The first thread's own step at the end of a run. */
  lemma FirstAdvances(events: seq<Event>, f: Fields, v: Voice.Fields, open: bool, log: seq<Observation>, first: Pc, at: Voice.Pc,
                      second: Pc, g: Fields, after: seq<Observation>, next: Pc) returns (longer: seq<Event>)
    requires Reaches(START, events, Two(f, v, open, log, first, at, second))
    requires (VoiceEntry(first) == Voice.Outside || at.Returned?) && !second.ReleaseWait? && (first.PressServer? ==> log == [])
    requires var section := PcSection(f, v.connection, first, at == Voice.Returned(Voice.Good), ALL_GOOD);
      section.fields == g && section.next == next && log + PcLog(f, first, open, ALL_GOOD) == after
    ensures Reaches(START, longer, Two(g, v, open, after, next, VoiceEntry(next), second))
  {
    FirstMoves(f, v, open, log, first, at, second);
    longer := Advance(events, Two(f, v, open, log, first, at, second), Stepped(0, ALL_GOOD),
                      Two(g, v, open, after, next, VoiceEntry(next), second));
  }

  /** The first thread's step in the voice client at the end of a run. */
  lemma FirstAdvancesBelow(events: seq<Event>, f: Fields, v: Voice.Fields, open: bool, log: seq<Observation>, first: Pc, at: Voice.Pc,
                           second: Pc, w: Voice.Fields, heard: bool, after: seq<Observation>, next: Voice.Pc) returns (longer: seq<Event>)
    requires Reaches(START, events, Two(f, v, open, log, first, at, second))
    requires VoiceEntry(first) != Voice.Outside && !at.Returned?
    requires var section := Voice.PcSection(v, open, at, ALL_GOOD.voice);
      section.fields == w && section.next == next && Voice.PcMicrophone(open, at, ALL_GOOD.voice) == heard
    requires after == if first.PressVoice? && at.PressStart? then log + [Opened(first.transmission, at.scope)] else log
    ensures Reaches(START, longer, Two(f, w, heard, after, first, next, second))
  {
    FirstMovesBelow(f, v, open, log, first, at, second);
    longer := Advance(events, Two(f, v, open, log, first, at, second), Stepped(0, ALL_GOOD),
                      Two(f, w, heard, after, first, next, second));
  }

  lemma FirstCalled(events: seq<Event>, f: Fields, v: Voice.Fields, open: bool, log: seq<Observation>, first: Pc, second: Pc, entry: Pc)
    returns (longer: seq<Event>)
    requires Reaches(START, events, Two(f, v, open, log, first, Voice.Outside, second))
    requires (first == Outside || first.Done?) && IsEntry(0, entry)
    ensures Reaches(START, longer, Two(f, v, open, log, entry, Voice.Outside, second))
  {
    FirstCalls(f, v, open, log, first, second, entry);
    longer := Advance(events, Two(f, v, open, log, first, Voice.Outside, second), Called(0, entry),
                      Two(f, v, open, log, entry, Voice.Outside, second));
  }

  lemma ReportedNow(events: seq<Event>, f: Fields, v: Voice.Fields, open: bool, log: seq<Observation>, first: Pc, at: Voice.Pc, second: Pc,
                 connection: Voice.Connection, w: Voice.Fields, heard: bool) returns (longer: seq<Event>)
    requires Reaches(START, events, Two(f, v, open, log, first, at, second)) && !at.ReleaseWait?
    requires Voice.StateChangedSection(v, connection).fields == w && heard == (open && connection == Voice.Connected)
    ensures Reaches(START, longer, Two(f, w, heard, log, first, at, second))
  {
    TransportReports(f, v, open, log, first, at, second, connection);
    longer := Advance(events, Two(f, v, open, log, first, at, second), Reported(connection, true),
                      Two(f, w, heard, log, first, at, second));
  }

  const NONE := Fields(false, None, Voice.Idle, 0, None, false, false)
  const READY := Fields(true, Some(1), Voice.Idle, 0, None, false, false)
  const STARTING := Fields(true, Some(1), Voice.Starting, 1, None, false, true)
  const GRANTED := Fields(true, Some(1), Voice.Starting, 1, Some(7), true, true)
  const TAKEN := Fields(true, Some(1), Voice.Starting, 1, None, true, true)
  const CONFIRMING := Fields(true, Some(1), Voice.Starting, 1, Some(7), false, true)
  const SPEAKING := Fields(true, Some(1), Voice.Active, 1, Some(7), false, true)
  const HOLLOW := Fields(true, Some(1), Voice.Active, 1, None, false, true)
  const WAITING := Fields(true, Some(1), Voice.Stopping, 1, None, false, true)

  const DOWN := Voice.Fields(Voice.Disconnected, Voice.Idle, 0, None, Voice.Good)
  const LINKING := Voice.Fields(Voice.Connecting, Voice.Idle, 0, None, Voice.Good)
  const UP := Voice.Fields(Voice.Connected, Voice.Idle, 0, None, Voice.Good)
  const OPENING := Voice.Fields(Voice.Connected, Voice.Starting, 1, None, Voice.Good)
  const LIVE := Voice.Fields(Voice.Connected, Voice.Active, 1, Some(Team), Voice.Good)
  const DROPPED := Voice.Fields(Voice.Reconnecting, Voice.Idle, 1, None, Voice.Good)

  const ALLOWED: seq<Observation> := [Granted(7, Team)]
  const HEARD: seq<Observation> := [Granted(7, Team), Opened(7, Team)]
  const AT_REST := Voice.Outside
  const STARTED := Voice.Returned(Voice.Good)
  const PRESS := PressVoice(1, Team, 7)

  lemma ToFetch() returns (events: seq<Event>)
    ensures Reaches(START, events, Two(NONE, DOWN, false, [], ConnectFetch, AT_REST, Outside))
  {
    events := FirstCalled([], NONE, DOWN, false, [], Outside, Outside, ConnectEnter);
    events := FirstAdvances(events, NONE, DOWN, false, [], ConnectEnter, AT_REST, Outside, NONE, [], ConnectFetch);
  }

  /** Connecting, up to the transport's own connection. */
  lemma ToOpen() returns (events: seq<Event>)
    ensures Reaches(START, events, Two(NONE, DOWN, false, [], Open(1), Voice.ConnectEnter, Outside))
  {
    events := ToFetch();
    events := FirstAdvances(events, NONE, DOWN, false, [], ConnectFetch, AT_REST, Outside, NONE, [], Open(1));
  }

  lemma ToLinked() returns (events: seq<Event>)
    ensures Reaches(START, events, Two(NONE, UP, false, [], Open(1), STARTED, Outside))
  {
    events := ToOpen();
    events := FirstAdvancesBelow(events, NONE, DOWN, false, [], Open(1), Voice.ConnectEnter, Outside, LINKING, false, [], Voice.ConnectTransport);
    events := FirstAdvancesBelow(events, NONE, LINKING, false, [], Open(1), Voice.ConnectTransport, Outside, LINKING, false, [], STARTED);
    events := ReportedNow(events, NONE, LINKING, false, [], Open(1), STARTED, Outside, Voice.Connected, UP, false);
  }

  lemma ToEnable() returns (events: seq<Event>)
    ensures Reaches(START, events, Two(NONE, UP, false, [], Enable(1), AT_REST, Outside))
  {
    events := ToLinked();
    events := FirstAdvances(events, NONE, UP, false, [], Open(1), STARTED, Outside, NONE, [], Enable(1));
  }

  /** Connected; nothing has been pressed. */
  lemma ToConnected() returns (events: seq<Event>)
    ensures Reaches(START, events, Two(READY, UP, false, [], Done(true), AT_REST, Outside))
  {
    events := ToEnable();
    events := FirstAdvances(events, NONE, UP, false, [], Enable(1), AT_REST, Outside, READY, [], Done(true));
  }

  /** Pressing, up to the server's grant. */
  lemma ToGranted() returns (events: seq<Event>)
    ensures Reaches(START, events, Two(STARTING, UP, false, ALLOWED, PressStored(1, Team, Some(7)), AT_REST, Outside))
  {
    events := ToConnected();
    events := FirstCalled(events, READY, UP, false, [], Done(true), Outside, PressEnter(Team));
    events := FirstAdvances(events, READY, UP, false, [], PressEnter(Team), AT_REST, Outside, STARTING, [], PressServer(1, Team, 1));
    events := FirstAdvances(events, STARTING, UP, false, [], PressServer(1, Team, 1), AT_REST, Outside, STARTING, ALLOWED,
                            PressStored(1, Team, Some(7)));
  }

  /** About to start the microphone. */
  lemma ToOpening() returns (events: seq<Event>)
    ensures Reaches(START, events, Two(GRANTED, OPENING, false, ALLOWED, PRESS, Voice.PressStart(1, Team), Outside))
  {
    events := ToGranted();
    events := FirstAdvances(events, STARTING, UP, false, ALLOWED, PressStored(1, Team, Some(7)), AT_REST, Outside, GRANTED, ALLOWED, PRESS);
    events := FirstAdvancesBelow(events, GRANTED, UP, false, ALLOWED, PRESS, Voice.PressEnter(Team), Outside, OPENING, false, ALLOWED,
                                 Voice.PressStart(1, Team));
  }

  /** The microphone is open, and the voice client active. */
  lemma ToHeard() returns (events: seq<Event>)
    ensures Reaches(START, events, Two(GRANTED, LIVE, true, HEARD, PRESS, STARTED, Outside))
  {
    events := ToOpening();
    events := FirstAdvancesBelow(events, GRANTED, OPENING, false, ALLOWED, PRESS, Voice.PressStart(1, Team), Outside, OPENING, true,
                                 HEARD, Voice.PressCheck(1, Team, Voice.Good));
    events := FirstAdvancesBelow(events, GRANTED, OPENING, true, HEARD, PRESS, Voice.PressCheck(1, Team, Voice.Good), Outside, LIVE, true,
                                 HEARD, STARTED);
  }

  lemma ToActive() returns (events: seq<Event>)
    ensures Reaches(START, events, Two(SPEAKING, LIVE, true, HEARD, Done(true), AT_REST, Outside))
  {
    events := ToHeard();
    events := FirstAdvances(events, GRANTED, LIVE, true, HEARD, PRESS, STARTED, Outside, GRANTED, HEARD, PressVoiceDone(1, 7, true));
    events := FirstAdvances(events, GRANTED, LIVE, true, HEARD, PressVoiceDone(1, 7, true), AT_REST, Outside, CONFIRMING, HEARD, PressConfirm(1, 7));
    events := FirstAdvances(events, CONFIRMING, LIVE, true, HEARD, PressConfirm(1, 7), AT_REST, Outside, SPEAKING, HEARD, Done(true));
  }

  /** The second thread is called to end the interrupted transmission, and ends it. */
  lemma SecondAdvances(events: seq<Event>, f: Fields, v: Voice.Fields, open: bool, log: seq<Observation>, first: Pc, at: Voice.Pc)
    returns (longer: seq<Event>)
    requires Reaches(START, events, Two(f, v, open, log, first, at, Outside)) && f.active == Some(7)
    ensures Reaches(START, longer, Two(f.(active := None), v, open, log + [EndAsked(7, open), Ended(7)], first, at, Done(true)))
  {
    SecondCalls(f, v, open, log, first, at);
    longer := Advance(events, Two(f, v, open, log, first, at, Outside), Called(1, Clean(Alone)), Two(f, v, open, log, first, at, Clean(Alone)));
    SecondCleans(f, v, open, log, first, at, 7);
    longer := Advance(longer, Two(f, v, open, log, first, at, Clean(Alone)), Stepped(1, ALL_GOOD),
                      Two(f.(active := None), v, open, log + [EndAsked(7, open), Ended(7)], first, at, Done(true)));
  }

  // ---------------------------------------------------------------- what goes wrong

  /** The microphone of a transmission opens after the server has ended it. */
  lemma AudioAfterEnd() returns (events: seq<Event>)
    ensures Init(START) && CanRun(START, events)
    ensures Run(START, events).log == [Granted(7, Team), EndAsked(7, false), Ended(7), Opened(7, Team)]
    ensures Run(START, events).voice.microphone
  {
    events := ToOpening();
    events := SecondAdvances(events, GRANTED, OPENING, false, ALLOWED, PRESS, Voice.PressStart(1, Team));
    var ended := ALLOWED + [EndAsked(7, false), Ended(7)];
    events := FirstAdvancesBelow(events, TAKEN, OPENING, false, ended, PRESS, Voice.PressStart(1, Team), Done(true), OPENING, true,
                                 ended + [Opened(7, Team)], Voice.PressCheck(1, Team, Voice.Good));
  }

  /** A transmission is ended while its microphone is open, although no stop has broken. */
  lemma OpenAtEnd() returns (events: seq<Event>)
    ensures Init(START) && CanRun(START, events)
    ensures Run(START, events).log == [Granted(7, Team), Opened(7, Team), EndAsked(7, true), Ended(7)]
    ensures !Run(START, events).voice.stopBroke
  {
    events := ToActive();
    events := SecondAdvances(events, SPEAKING, LIVE, true, HEARD, Done(true), AT_REST);
  }

  const AFTER_DROP: seq<Observation> := [Granted(7, Team), Opened(7, Team), EndAsked(7, false), Ended(7)]

  /** The transport drops, and the interrupted transmission is ended; by then nothing is open. */
  lemma ToCleaned() returns (events: seq<Event>)
    ensures Reaches(START, events, Two(HOLLOW, DROPPED, false, AFTER_DROP, Done(true), AT_REST, Done(true)))
  {
    events := ToActive();
    events := ReportedNow(events, SPEAKING, LIVE, true, HEARD, Done(true), AT_REST, Outside, Voice.Reconnecting, DROPPED, false);
    events := SecondAdvances(events, SPEAKING, DROPPED, false, HEARD, Done(true), AT_REST);
    assert HEARD + [EndAsked(7, false), Ended(7)] == AFTER_DROP;
  }

  /** The release that follows begins to wait for a generation nobody owns. */
  lemma ToStranded() returns (events: seq<Event>)
    ensures Reaches(START, events, Two(WAITING, DROPPED, false, AFTER_DROP, ReleaseWait(1, Alone, false, true), AT_REST, Done(true)))
  {
    events := ToCleaned();
    events := FirstCalled(events, HOLLOW, DROPPED, false, AFTER_DROP, Done(true), Done(true), ReleaseEnter(Alone));
    events := FirstAdvances(events, HOLLOW, DROPPED, false, AFTER_DROP, ReleaseEnter(Alone), AT_REST, Done(true), WAITING, AFTER_DROP,
                            ReleaseWait(1, Alone, false, true));
  }

  /**
   * Ending the transmission that a transport drop has interrupted harms no audio, but leaves the coordinator active: the
   * release that follows waits for ever, whatever happens then.
   */
  lemma ReleaseAfterDropWaitsForever() returns (events: seq<Event>)
    ensures Init(START) && CanRun(START, events)
    ensures var s := Run(START, events);
      && s.log == [Granted(7, Team), Opened(7, Team), EndAsked(7, false), Ended(7)]
      && 0 in s.threads && s.threads[0] == ReleaseWait(1, Alone, false, true)
      && forall more :: CanRun(s, more) ==> !WaitOver(Run(s, more).fields, 1)
  {
    events := ToStranded();
    var s := Run(START, events);
    assert Stranded(s) && s.fields.generation == 1;
    forall more | CanRun(s, more) ensures !WaitOver(Run(s, more).fields, 1) {
      StrandedForever(s, more);
    }
  }
}
