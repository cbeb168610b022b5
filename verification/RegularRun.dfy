/** The run from the start in which nothing goes wrong: connect, press and release on one thread. */
module RegularRun {
  import opened Basics
  import Voice = VoiceClient
  import opened AuthorizedVoiceClient
  import opened EarlyCleanup

  const RELEASING := Fields(true, Some(1), Voice.Stopping, 1, Some(7), false, true)
  const OVER := Fields(true, Some(1), Voice.Idle, 1, None, false, true)
  const HALTING := Voice.Fields(Voice.Connected, Voice.Stopping, 1, Some(Team), Voice.Good)
  const QUIET := Voice.Fields(Voice.Connected, Voice.Idle, 1, None, Voice.Good)
  const RELEASE := ReleaseVoice(1, 7, Alone)
  const COMPLETE: seq<Observation> := [Granted(7, Team), Opened(7, Team), EndAsked(7, false), Ended(7)]

  lemma ToCalled() returns (events: seq<Event>)
    ensures Reaches(START, events, Two(SPEAKING, LIVE, true, HEARD, ReleaseEnter(Alone), AT_REST, Outside))
  {
    events := ToActive();
    events := FirstCalled(events, SPEAKING, LIVE, true, HEARD, Done(true), Outside, ReleaseEnter(Alone));
  }

  lemma ToReleasing() returns (events: seq<Event>)
    ensures Reaches(START, events, Two(RELEASING, LIVE, true, HEARD, RELEASE, Voice.ReleaseEnter(false), Outside))
  {
    events := ToCalled();
    events := FirstAdvances(events, SPEAKING, LIVE, true, HEARD, ReleaseEnter(Alone), AT_REST, Outside, RELEASING, HEARD, RELEASE);
  }

  lemma ToHalted() returns (events: seq<Event>)
    ensures Reaches(START, events, Two(RELEASING, HALTING, false, HEARD, RELEASE, Voice.ReleaseFinish(1, false, Voice.Good), Outside))
  {
    events := ToReleasing();
    events := FirstAdvancesBelow(events, RELEASING, LIVE, true, HEARD, RELEASE, Voice.ReleaseEnter(false), Outside, HALTING, true, HEARD,
                                 Voice.ReleaseStop(1, false));
    events := FirstAdvancesBelow(events, RELEASING, HALTING, true, HEARD, RELEASE, Voice.ReleaseStop(1, false), Outside, HALTING, false,
                                 HEARD, Voice.ReleaseFinish(1, false, Voice.Good));
  }

  /** The microphone is silent again. */
  lemma ToSilent() returns (events: seq<Event>)
    ensures Reaches(START, events, Two(RELEASING, QUIET, false, HEARD, RELEASE, STARTED, Outside))
  {
    events := ToHalted();
    events := FirstAdvancesBelow(events, RELEASING, HALTING, false, HEARD, RELEASE, Voice.ReleaseFinish(1, false, Voice.Good), Outside,
                                 QUIET, false, HEARD, STARTED);
  }

  lemma ToAsking() returns (events: seq<Event>)
    ensures Reaches(START, events, Two(RELEASING, QUIET, false, HEARD, ReleaseEnd(1, 7, true, Alone), AT_REST, Outside))
  {
    events := ToSilent();
    events := FirstAdvances(events, RELEASING, QUIET, false, HEARD, RELEASE, STARTED, Outside, RELEASING, HEARD,
                            ReleaseEnd(1, 7, true, Alone));
  }

  lemma EndIsLogged()
    ensures HEARD + PcLog(RELEASING, ReleaseEnd(1, 7, true, Alone), false, ALL_GOOD) == COMPLETE
  {}

  /** And the server has ended the transmission. */
  lemma ToEnded() returns (events: seq<Event>)
    ensures Reaches(START, events, Two(RELEASING, QUIET, false, COMPLETE, ReleaseFinish(1, true, true, Alone), AT_REST, Outside))
  {
    events := ToAsking();
    EndIsLogged();
    events := FirstAdvances(events, RELEASING, QUIET, false, HEARD, ReleaseEnd(1, 7, true, Alone), AT_REST, Outside, RELEASING, COMPLETE,
                            ReleaseFinish(1, true, true, Alone));
  }

  lemma ToReleased() returns (events: seq<Event>)
    ensures Reaches(START, events, Two(OVER, QUIET, false, COMPLETE, Done(true), AT_REST, Outside))
  {
    events := ToEnded();
    events := FirstAdvances(events, RELEASING, QUIET, false, COMPLETE, ReleaseFinish(1, true, true, Alone), AT_REST, Outside, OVER,
                            COMPLETE, Done(true));
  }

  /** A press, undisturbed, answers success with the microphone open. */
  lemma PressGoesThrough() returns (events: seq<Event>)
    ensures Init(START) && CanRun(START, events)
    ensures var s := Run(START, events);
      && 0 in s.threads && s.threads[0] == Done(true)
      && s.voice.microphone && s.voice.fields.activeScope == Some(Team)
      && s.log == [Granted(7, Team), Opened(7, Team)]
  {
    events := ToActive();
  }

  /** The release after it answers success, too, and leaves nothing behind. */
  lemma ReleaseGoesThrough() returns (events: seq<Event>)
    ensures Init(START) && CanRun(START, events)
    ensures var s := Run(START, events);
      && 0 in s.threads && s.threads[0] == Done(true) && s.fields.lastRelease
      && s.fields.publication == Voice.Idle && s.fields.active.None? && !s.voice.microphone
      && s.log == [Granted(7, Team), Opened(7, Team), EndAsked(7, false), Ended(7)]
  {
    events := ToReleased();
  }
}
