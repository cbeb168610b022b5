/** What the authorised press, release and lifecycle operations answer. */
module AuthorizedAnswers {
  import opened Basics
  import Voice = VoiceClient
  import opened AuthorizedVoiceClient

  // ---------------------------------------------------------------- the story of one thread

  /** What one thread has done to the log, and what the voice client has answered it. */
  datatype Story = Story(log: seq<Observation>, heard: seq<Voice.Outcome>)

  const NOTHING_YET := Story([], [])

  lemma LogGrows(s: State, e: Event)
    requires Enabled(s, e)
    ensures s.log <= Next(s, e).log
  {}

  /** The story of `t` after one event; only its own steps make part of it. */
  function Told(s: State, e: Event, t: Tid, story: Story): Story
    requires Enabled(s, e) && t in s.threads
  {
    LogGrows(s, e);
    if e.Stepped? && e.t == t then
      Story(story.log + Next(s, e).log[|s.log|..],
            if s.voice.threads[t].Returned? then story.heard + [s.voice.threads[t].result] else story.heard)
    else story
  }

  lemma KeepsThreads(s: State, e: Event)
    requires Enabled(s, e)
    ensures Wired(Next(s, e)) && Next(s, e).threads.Keys == s.threads.Keys
  {
    if e.Stepped? { StepFacts(s, e.t, e.choice); }
  }

  /** A step moves its own thread only; the others may be woken, here or in the voice client. */
  lemma StepFacts(s: State, t: Tid, choice: Choice)
    requires Wired(s) && t in s.threads
    ensures var s' := Step(s, t, choice);
      && Wired(s') && s'.threads.Keys == s.threads.Keys
      && (forall u <- s.threads :: u != t ==>
            && (s'.threads[u] == s.threads[u] || s'.threads[u] == Wake(s.threads[u]))
            && (s'.voice.threads[u] == s.voice.threads[u] || s'.voice.threads[u] == Voice.Wake(s.voice.threads[u])))
      && if InVoice(s, t)
         then s'.threads[t] == s.threads[t] && s'.fields == s.fields
           && s'.voice.threads[t] == Voice.PcSection(s.voice.fields, s.voice.microphone, s.voice.threads[t], choice.voice).next
         else var section := PcSection(s.fields, s.voice.fields.connection, s.threads[t], s.voice.threads[t] == Voice.Returned(Voice.Good), choice);
           && s'.threads[t] == section.next && s'.voice.threads[t] == VoiceEntry(section.next) && s'.fields == section.fields
           && s'.log == s.log + PcLog(s.fields, s.threads[t], s.voice.microphone, choice)
  {
    if InVoice(s, t) {
      Voice.OthersOnlyWake(s.voice, t, choice.voice);
    } else {
      EnterOthers(s.(log := s.log + PcLog(s.fields, s.threads[t], s.voice.microphone, choice)), t,
        PcSection(s.fields, s.voice.fields.connection, s.threads[t], s.voice.threads[t] == Voice.Returned(Voice.Good), choice));
    }
  }

  /** A thread outside the voice client runs its section. */
  lemma SectionStep(s: State, t: Tid, choice: Choice)
    requires Wired(s) && t in s.threads && VoiceEntry(s.threads[t]) == Voice.Outside && !s.voice.threads[t].Returned?
    ensures var section, s' := PcSection(s.fields, s.voice.fields.connection, s.threads[t], false, choice), Step(s, t, choice);
      t in s'.threads && s'.threads[t] == section.next && s'.fields == section.fields
  {
    StepFacts(s, t, choice);
  }

  lemma NotReturned(s: State, t: Tid)
    requires Inv(s) && t in s.threads && VoiceEntry(s.threads[t]) == Voice.Outside
    ensures !s.voice.threads[t].Returned?
  {
    assert Fits(s.fields, s.log, s.voice.fields, t, s.threads[t], s.voice.threads[t]);
  }

  function Telling(s: State, events: seq<Event>, t: Tid, story: Story): Story
    requires CanRun(s, events) && t in s.threads
    decreases |events|
  {
    if events == [] then story
    else
      KeepsThreads(s, events[0]);
      Telling(Next(s, events[0]), events[1..], t, Told(s, events[0], t, story))
  }

  /** Thread `t` starts no further operation. */
  predicate OneCall(events: seq<Event>, t: Tid) { forall e <- events :: !(e.Called? && e.t == t) }

  /** What others do leaves a thread where it is, except that it may be woken. */
  lemma OthersLeave(s: State, e: Event, t: Tid)
    requires Enabled(s, e) && t in s.threads && !(e.Called? && e.t == t) && !(e.Stepped? && e.t == t)
    ensures var s' := Next(s, e);
      && t in s'.threads && t in s'.voice.threads
      && (s'.threads[t] == s.threads[t] || s'.threads[t] == Wake(s.threads[t]))
      && (s'.voice.threads[t] == s.voice.threads[t] || s'.voice.threads[t] == Voice.Wake(s.voice.threads[t]))
  {
    if e.Stepped? { StepFacts(s, e.t, e.choice); }
  }

  /** The microphone start that a thread's step in the voice client shows. */
  function VoiceLog(pc: Pc, at: Voice.Pc): seq<Observation> {
    if pc.PressVoice? && at.PressStart? then [Opened(pc.transmission, at.scope)] else []
  }

  /** What the voice client answers a thread that takes its own step. */
  function Answer(at: Voice.Pc): seq<Voice.Outcome> { if at.Returned? then [at.result] else [] }

  /** A thread's own step adds what it logs and the answer it takes from the voice client. */
  lemma StepTells(s: State, t: Tid, choice: Choice, story: Story)
    requires Inv(s) && Enabled(s, Stepped(t, choice))
    ensures var pc, at := s.threads[t], s.voice.threads[t];
      Told(s, Stepped(t, choice), t, story) ==
        if InVoice(s, t) then Story(story.log + VoiceLog(pc, at), story.heard)
        else Story(story.log + PcLog(s.fields, pc, s.voice.microphone, choice), story.heard + Answer(at))
    ensures !InVoice(s, t) ==> (VoiceEntry(s.threads[t]) == Voice.Outside <==> !s.voice.threads[t].Returned?)
  {
    var pc, at := s.threads[t], s.voice.threads[t];
    assert Fits(s.fields, s.log, s.voice.fields, t, pc, at);
    StepFacts(s, t, choice);
    var more := if InVoice(s, t) then VoiceLog(pc, at) else PcLog(s.fields, pc, s.voice.microphone, choice);
    assert Step(s, t, choice).log == s.log + more;
    assert (s.log + more)[|s.log|..] == more;
    assert story.heard + [] == story.heard;
  }

  // ---------------------------------------------------------------- the answer of a release

  /** A request to end `transmission`, with the server's answer. */
  predicate IsAsk(log: seq<Observation>, transmission: Transmission, ended: bool) {
    && |log| == (if ended then 2 else 1)
    && log[0].EndAsked? && log[0].transmission == transmission
    && (ended ==> log[1] == Ended(transmission))
  }

  lemma AsksOnce(transmission: Transmission, open: bool, ended: bool)
    ensures IsAsk(AskLog(transmission, open, ended), transmission, ended)
  {}

  /** The releaser that ends the transmission carries along what it has been told by both sides. */
  predicate ReleaseStory(pc: Pc, transmission: Transmission, after: After, story: Story) {
    match pc
    case ReleaseVoice(_, x, a) => x == transmission && a == after && story == NOTHING_YET
    case ReleaseEnd(_, x, stopped, a) =>
      x == transmission && a == after && story.log == [] && |story.heard| == 1 && stopped == (story.heard[0] == Voice.Good)
    case ReleaseFinish(_, ended, stopped, a) =>
      a == after && IsAsk(story.log, transmission, ended) && |story.heard| == 1 && stopped == (story.heard[0] == Voice.Good)
    case Done(ok) =>
      if after.Alone?
      then |story.heard| == 1 && IsAsk(story.log, transmission, |story.log| == 2) && ok == (|story.log| == 2 && story.heard[0] == Voice.Good)
      else ok ==> Succeeded(story, transmission)
    case Clean(a) => a == after && !after.Alone? && Succeeded(story, transmission)
    case _ => (pc.Close? || pc.Forget? || pc.Open? || pc.Enable? || pc.Reset?) && !after.Alone? && Succeeded(story, transmission)
  }

  /** The voice client's release succeeded, and the server ended the transmission. */
  predicate Succeeded(story: Story, transmission: Transmission) {
    && |story.heard| >= 1 && story.heard[0] == Voice.Good
    && |story.log| >= 2 && IsAsk(story.log[..2], transmission, true)
  }

  lemma StillSucceeded(story: Story, transmission: Transmission, more: seq<Observation>, heard: seq<Voice.Outcome>)
    requires Succeeded(story, transmission)
    ensures Succeeded(Story(story.log + more, story.heard + heard), transmission)
  {
    assert (story.log + more)[..2] == story.log[..2];
  }

  lemma ReleaseTells(f: Fields, connection: Voice.Connection, pc: Pc, at: Voice.Pc, open: bool, choice: Choice,
                     transmission: Transmission, after: After, story: Story)
    requires ReleaseStory(pc, transmission, after, story) && (VoiceEntry(pc) == Voice.Outside <==> !at.Returned?)
    requires pc.ReleaseVoice? || pc.ReleaseEnd? || pc.ReleaseFinish?
    ensures ReleaseStory(PcSection(f, connection, pc, at == Voice.Returned(Voice.Good), choice).next, transmission, after,
                         Story(story.log + PcLog(f, pc, open, choice), story.heard + Answer(at)))
  {
    if pc.ReleaseEnd? {
      AsksOnce(transmission, open, choice.ended);
      assert story.log + AskLog(transmission, open, choice.ended) == AskLog(transmission, open, choice.ended);
    } else {
      assert story.log + [] == story.log;
      assert pc.ReleaseFinish? ==> story.log == story.log[..|story.log|];
    }
    assert story.heard + [] == story.heard;
  }

  lemma AfterReleaseTells(f: Fields, connection: Voice.Connection, pc: Pc, at: Voice.Pc, open: bool, choice: Choice,
                          transmission: Transmission, after: After, story: Story)
    requires ReleaseStory(pc, transmission, after, story) && (VoiceEntry(pc) == Voice.Outside <==> !at.Returned?)
    requires !pc.ReleaseVoice? && !pc.ReleaseEnd? && !pc.ReleaseFinish?
    ensures ReleaseStory(PcSection(f, connection, pc, at == Voice.Returned(Voice.Good), choice).next, transmission, after,
                         Story(story.log + PcLog(f, pc, open, choice), story.heard + Answer(at)))
  {
    if pc.Done? {
      assert story.log + [] == story.log && story.heard + [] == story.heard;
    } else {
      StillSucceeded(story, transmission, PcLog(f, pc, open, choice), Answer(at));
    }
  }

  lemma ReleaseStep(s: State, t: Tid, choice: Choice, transmission: Transmission, after: After, story: Story)
    requires Inv(s) && Enabled(s, Stepped(t, choice)) && ReleaseStory(s.threads[t], transmission, after, story)
    ensures var s' := Step(s, t, choice);
      t in s'.threads && ReleaseStory(s'.threads[t], transmission, after, Told(s, Stepped(t, choice), t, story))
  {
    var pc, at := s.threads[t], s.voice.threads[t];
    StepFacts(s, t, choice);
    StepTells(s, t, choice, story);
    if InVoice(s, t) {
      assert story.log + [] == story.log;
    } else if pc.ReleaseVoice? || pc.ReleaseEnd? || pc.ReleaseFinish? {
      ReleaseTells(s.fields, s.voice.fields.connection, pc, at, s.voice.microphone, choice, transmission, after, story);
    } else {
      AfterReleaseTells(s.fields, s.voice.fields.connection, pc, at, s.voice.microphone, choice, transmission, after, story);
    }
  }

  lemma {:induction false} ReleaseRun(s: State, events: seq<Event>, t: Tid, transmission: Transmission, after: After, story: Story)
    requires Inv(s) && CanRun(s, events) && t in s.threads && OneCall(events, t)
    requires ReleaseStory(s.threads[t], transmission, after, story)
    ensures var s' := Run(s, events);
      t in s'.threads && ReleaseStory(s'.threads[t], transmission, after, Telling(s, events, t, story))
    decreases |events|
  {
    if events != [] {
      var e := events[0];
      NextInv(s, e);
      if e.Stepped? && e.t == t {
        ReleaseStep(s, t, e.choice, transmission, after, story);
      } else {
        OthersLeave(s, e, t);
      }
      ReleaseRun(Next(s, e), events[1..], t, transmission, after, Told(s, e, t, story));
    }
  }

  /**
   * A release of an active transmission asks the server once for its end, and answers success exactly if the server ended
   * it and the voice client's own release succeeded, whatever else happened meanwhile.
   */
  lemma ReleaseIsAnswered(s: State, events: seq<Event>, t: Tid, g: nat, x: Transmission)
    requires Inv(s) && CanRun(s, events) && t in s.threads && s.threads[t] == ReleaseVoice(g, x, Alone) && OneCall(events, t)
    requires t in Run(s, events).threads && Run(s, events).threads[t].Done?
    ensures var story := Telling(s, events, t, NOTHING_YET);
      && |story.heard| == 1 && IsAsk(story.log, x, Ended(x) in story.log)
      && Run(s, events).threads[t] == Done(Ended(x) in story.log && story.heard == [Voice.Good])
  {
    ReleaseRun(s, events, t, x, Alone, NOTHING_YET);
  }

  /** A disconnect or refresh answers success only if the release it began with did. */
  lemma SuspendedReleaseIsAnswered(s: State, events: seq<Event>, t: Tid, g: nat, x: Transmission, after: After)
    requires Inv(s) && CanRun(s, events) && t in s.threads && s.threads[t] == ReleaseVoice(g, x, after) && OneCall(events, t)
    requires !after.Alone? && t in Run(s, events).threads && Run(s, events).threads[t] == Done(true)
    ensures var story := Telling(s, events, t, NOTHING_YET);
      |story.heard| >= 1 && story.heard[0] == Voice.Good && Ended(x) in story.log
  {
    ReleaseRun(s, events, t, x, after, NOTHING_YET);
    var story := Telling(s, events, t, NOTHING_YET);
    assert story.log[..2][1] == story.log[1];
  }

  lemma FinishTells(f: Fields, pc: Pc, x: Transmission, after: After, story: Story)
    requires pc.ReleaseFinish? && pc.generation == f.generation && ReleaseStory(pc, x, after, story)
    ensures var section := ReleaseFinishSection(f, pc.generation, pc.ended, pc.stopped, pc.after);
      var good := Ended(x) in story.log && story.heard == [Voice.Good];
      && section.fields == f.(publication := Voice.Idle, lastRelease := good, active := if Ended(x) in story.log then None else f.active)
      && section.next == if good && !after.Alone? then Clean(after) else Done(good)
  {}

  /**
   * The last section of that release: the publication is idle, the answer is recorded for those who wait, and a disconnect
   * or refresh goes on exactly if it was good.
   */
  lemma ReleaseRecordsAnswer(s: State, events: seq<Event>, t: Tid, g: nat, x: Transmission, after: After, choice: Choice)
    requires Inv(s) && CanRun(s, events) && t in s.threads && s.threads[t] == ReleaseVoice(g, x, after) && OneCall(events, t)
    requires Wired(Run(s, events)) && t in Run(s, events).threads && Run(s, events).threads[t].ReleaseFinish?
    ensures var story := Telling(s, events, t, NOTHING_YET);
      var good := Ended(x) in story.log && story.heard == [Voice.Good];
      var mid := Run(s, events);
      var s' := Step(mid, t, choice);
      && t in s'.threads
      && s'.fields == mid.fields.(publication := Voice.Idle, lastRelease := good,
                                  active := if Ended(x) in story.log then None else mid.fields.active)
      && s'.threads[t] == if good && !after.Alone? then Clean(after) else Done(good)
  {
    RunInv(s, events);
    ReleaseRun(s, events, t, x, after, NOTHING_YET);
    var mid, story := Run(s, events), Telling(s, events, t, NOTHING_YET);
    OwnerKeepsGeneration(mid, t);
    FinishTells(mid.fields, mid.threads[t], x, after, story);
    StepFacts(mid, t, choice);
  }

  lemma OwnerKeepsGeneration(s: State, t: Tid)
    requires Inv(s) && t in s.threads && IsOwner(s.threads[t])
    ensures s.threads[t].generation == s.fields.generation
    ensures VoiceEntry(s.threads[t]) == Voice.Outside ==> !InVoice(s, t)
  {
    assert Fits(s.fields, s.log, s.voice.fields, t, s.threads[t], s.voice.threads[t]);
  }

  /** A release of nothing fails; one of an active publication ends its transmission; any other waits, or cancels the start first. */
  lemma ReleaseBegins(s: State, t: Tid, choice: Choice)
    requires Inv(s) && t in s.threads && s.threads[t] == ReleaseEnter(Alone)
    ensures var f, s' := s.fields, Step(s, t, choice);
      && t in s'.threads
      && (f.publication == Voice.Idle <==> s'.threads[t] == Done(false))
      && (s'.threads[t].ReleaseVoice? <==> f.publication == Voice.Active && f.active.Some?)
      && (s'.threads[t].ReleaseVoice? ==> s'.threads[t] == ReleaseVoice(f.generation, f.active.value, Alone))
      && (s'.threads[t].ReleaseCancel? <==> f.publication == Voice.Starting && f.voiceStart)
      && s'.fields == if f.publication == Voice.Idle then f else f.(publication := Voice.Stopping)
  {
    StepFacts(s, t, choice);
  }

  // ---------------------------------------------------------------- what waiting releases are told

  lemma SectionRests(f: Fields, log: seq<Observation>, v: Voice.Fields, t: Tid, pc: Pc, at: Voice.Pc, good: bool, choice: Choice)
    requires Fits(f, log, v, t, pc, at) && f.publication == Voice.Idle
    ensures var g := PcSection(f, v.connection, pc, good, choice).fields;
      g.generation == f.generation ==> g.publication == Voice.Idle && g.lastRelease == f.lastRelease
  {}

  /** The answer a generation left behind stays until the next press begins. */
  lemma RestStays(s: State, e: Event)
    requires Inv(s) && Enabled(s, e)
    ensures var f := Next(s, e).fields;
      && f.generation >= s.fields.generation
      && (s.fields.publication == Voice.Idle && f.generation == s.fields.generation ==>
            f.publication == Voice.Idle && f.lastRelease == s.fields.lastRelease)
  {
    if e.Stepped? {
      var pc, at := s.threads[e.t], s.voice.threads[e.t];
      assert Fits(s.fields, s.log, s.voice.fields, e.t, pc, at);
      StepFacts(s, e.t, e.choice);
      GenerationGrows(s.fields, s.log, s.voice.fields, e.t, pc, at, at == Voice.Returned(Voice.Good), e.choice);
      if s.fields.publication == Voice.Idle {
        SectionRests(s.fields, s.log, s.voice.fields, e.t, pc, at, at == Voice.Returned(Voice.Good), e.choice);
      }
    }
  }

  lemma {:induction false} RunGrows(s: State, events: seq<Event>)
    requires Inv(s) && CanRun(s, events)
    ensures Run(s, events).fields.generation >= s.fields.generation
    decreases |events|
  {
    if events != [] {
      RestStays(s, events[0]);
      NextInv(s, events[0]);
      RunGrows(Next(s, events[0]), events[1..]);
    }
  }

  lemma {:induction false} RestStaysRun(s: State, events: seq<Event>)
    requires Inv(s) && CanRun(s, events) && s.fields.publication == Voice.Idle
    requires Run(s, events).fields.generation == s.fields.generation
    ensures Run(s, events).fields.publication == Voice.Idle && Run(s, events).fields.lastRelease == s.fields.lastRelease
    decreases |events|
  {
    if events != [] {
      RestStays(s, events[0]);
      NextInv(s, events[0]);
      RunGrows(Next(s, events[0]), events[1..]);
      RestStaysRun(Next(s, events[0]), events[1..]);
    }
  }

  lemma {:induction false} StaysDone(s: State, events: seq<Event>, t: Tid)
    requires Inv(s) && CanRun(s, events) && t in s.threads && OneCall(events, t) && s.threads[t].Done?
    ensures t in Run(s, events).threads && Run(s, events).threads[t] == s.threads[t]
    decreases |events|
  {
    if events != [] {
      var e := events[0];
      NextInv(s, e);
      if e.Stepped? && e.t == t { StepFacts(s, t, e.choice); } else { OthersLeave(s, e, t); }
      StaysDone(Next(s, e), events[1..], t);
    }
  }

  lemma WaiterAwake(s: State, t: Tid)
    requires Inv(s) && t in s.threads && s.threads[t].ReleaseWait? && WaitOver(s.fields, s.threads[t].generation)
    ensures !s.threads[t].asleep && !InVoice(s, t)
  {
    assert Fits(s.fields, s.log, s.voice.fields, t, s.threads[t], s.voice.threads[t]);
  }

  /** The waiter's own step, once the generation it waits for is over; a disconnect or refresh then goes on exactly if all was well. */
  lemma WaiterSteps(s: State, t: Tid, choice: Choice)
    requires Inv(s) && t in s.threads && s.threads[t].ReleaseWait? && WaitOver(s.fields, s.threads[t].generation)
    ensures var pc, s' := s.threads[t], Step(s, t, choice);
      var good := pc.stopped && s.fields.lastRelease;
      && t in s'.threads && s'.fields == s.fields
      && s'.threads[t] == if good && !pc.after.Alone? then Clean(pc.after) else Done(good)
  {
    WaiterAwake(s, t);
    NotReturned(s, t);
    SectionStep(s, t, choice);
  }

  /**
   * A release that waited for a generation, and returns before the next press, succeeds exactly if that generation ended
   * well and its own attempt to cancel the start, if it made one, did too.
   */
  lemma {:induction false} WaiterIsTold(s: State, events: seq<Event>, t: Tid, asleep: bool, stopped: bool)
    requires Inv(s) && CanRun(s, events) && t in s.threads && OneCall(events, t)
    requires s.fields.publication == Voice.Idle && Run(s, events).fields.generation == s.fields.generation
    requires s.threads[t] == ReleaseWait(s.fields.generation, Alone, asleep, stopped)
    ensures var s' := Run(s, events);
      && t in s'.threads
      && (s'.threads[t] == Done(stopped && s.fields.lastRelease)
          || exists a :: s'.threads[t] == ReleaseWait(s.fields.generation, Alone, a, stopped))
    decreases |events|
  {
    if events != [] {
      var e := events[0];
      NextInv(s, e);
      RestStays(s, e);
      RunGrows(Next(s, e), events[1..]);
      if e.Stepped? && e.t == t {
        WaiterSteps(s, t, e.choice);
        StaysDone(Next(s, e), events[1..], t);
      } else {
        OthersLeave(s, e, t);
        WaiterIsTold(Next(s, e), events[1..], t, Next(s, e).threads[t].asleep, stopped);
      }
    }
  }

  /** A press under way has wiped out the answer of the generation before it. */
  predicate Fresh(f: Fields) { f.publication == Voice.Starting ==> f.lastRelease }

  lemma SectionFresh(f: Fields, log: seq<Observation>, v: Voice.Fields, t: Tid, pc: Pc, at: Voice.Pc, good: bool, choice: Choice)
    requires Fits(f, log, v, t, pc, at) && Fresh(f)
    ensures Fresh(PcSection(f, v.connection, pc, good, choice).fields)
  {}

  lemma FreshNext(s: State, e: Event)
    requires Inv(s) && Enabled(s, e) && Fresh(s.fields)
    ensures Fresh(Next(s, e).fields)
  {
    if e.Stepped? {
      var pc, at := s.threads[e.t], s.voice.threads[e.t];
      assert Fits(s.fields, s.log, s.voice.fields, e.t, pc, at);
      StepFacts(s, e.t, e.choice);
      SectionFresh(s.fields, s.log, s.voice.fields, e.t, pc, at, at == Voice.Returned(Voice.Good), e.choice);
    }
  }

  lemma {:induction false} FreshRun(s: State, events: seq<Event>)
    requires Inv(s) && CanRun(s, events) && Fresh(s.fields)
    ensures Fresh(Run(s, events).fields)
    decreases |events|
  {
    if events != [] {
      FreshNext(s, events[0]);
      NextInv(s, events[0]);
      FreshRun(Next(s, events[0]), events[1..]);
    }
  }

  /** So a release that wakes only while the next press is starting is told success, even if the server refused to end its transmission. */
  lemma LateWaiterIsToldSuccess(s: State, events: seq<Event>, t: Tid, choice: Choice)
    requires Init(s) && CanRun(s, events)
    requires var s' := Run(s, events);
      && Wired(s') && t in s'.threads && s'.threads[t].ReleaseWait? && s'.threads[t].after.Alone? && s'.threads[t].stopped
      && s'.threads[t].generation != s'.fields.generation && s'.fields.publication == Voice.Starting
    ensures t in Step(Run(s, events), t, choice).threads && Step(Run(s, events), t, choice).threads[t] == Done(true)
  {
    InitInv(s);
    RunInv(s, events);
    FreshRun(s, events);
    WaiterSteps(Run(s, events), t, choice);
  }

  /** A release that cancels a start carries the voice client's answer into its wait. */
  lemma CancelIsCarried(s: State, t: Tid, choice: Choice)
    requires Inv(s) && t in s.threads && s.threads[t].ReleaseCancel? && !InVoice(s, t)
    ensures var pc, s' := s.threads[t], Step(s, t, choice);
      && t in s'.threads && s.voice.threads[t].Returned?
      && s'.threads[t] == ReleaseWait(pc.generation, pc.after, false, s.voice.threads[t].result == Voice.Good)
      && s'.fields == s.fields
  {
    assert Fits(s.fields, s.log, s.voice.fields, t, s.threads[t], s.voice.threads[t]);
    StepFacts(s, t, choice);
  }
}
