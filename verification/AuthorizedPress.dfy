/** The answer of an authorised press, and the scope it puts on air. */
module AuthorizedPress {
  import opened Basics
  import Voice = VoiceClient
  import opened AuthorizedVoiceClient
  import opened AuthorizedAnswers

  // ---------------------------------------------------------------- the answer of a press

  /** Granted, and perhaps heard. */
  predicate Begun(log: seq<Observation>, x: Transmission, scope: VoiceScope) {
    log == [Granted(x, scope)] || log == [Granted(x, scope), Opened(x, scope)]
  }

  /** Granted, perhaps heard, and then asked to end. */
  predicate TakenBack(log: seq<Observation>, x: Transmission, scope: VoiceScope, ended: bool) {
    exists k :: 0 < k <= |log| && Begun(log[..k], x, scope) && IsAsk(log[k..], x, ended)
  }

  /** Whether the thread's call into the voice client has attempted the microphone. */
  predicate Attempted(at: Voice.Pc) {
    at.PressCheck? || at.PressQuery? || at.PressStop? || at.PressFinish? || at == Voice.Returned(Voice.Good)
  }

  /** What a presser carries along is what it has been told by the server and by the voice client. */
  ghost predicate PressStory(pc: Pc, at: Voice.Pc, scope: VoiceScope, story: Story) {
    match pc
    case PressEnter(p) => p == scope && story == NOTHING_YET
    case PressServer(_, p, _) => p == scope && story == NOTHING_YET
    case PressStored(_, p, granted) =>
      p == scope && story == (if granted.None? then NOTHING_YET else Story([Granted(granted.value, scope)], []))
    case PressCancelEnd(_, x) => story == Story([Granted(x, scope)], [])
    case PressCancelFinish(_, x, ended) => TakenBack(story.log, x, scope, ended)
    case PressVoice(_, p, x) =>
      && p == scope && story.heard == [] && Begun(story.log, x, scope)
      && (at.PressEnter? || at.PressStart? ==> story.log == [Granted(x, scope)])
      && (Attempted(at) ==> story.log == [Granted(x, scope), Opened(x, scope)])
    case PressVoiceDone(_, x, succeeded) =>
      && Begun(story.log, x, scope) && |story.heard| == 1 && succeeded == (story.heard[0] == Voice.Good)
      && (succeeded ==> story.log == [Granted(x, scope), Opened(x, scope)])
    case PressRollbackEnd(_, x) => Begun(story.log, x, scope) && |story.heard| == 1 && story.heard[0] != Voice.Good
    case PressRollbackFinish(_, x, ended) => TakenBack(story.log, x, scope, ended)
    case PressConfirm(_, x) => story == Story([Granted(x, scope), Opened(x, scope)], [Voice.Good])
    case PressUndoVoice(_, x) => story == Story([Granted(x, scope), Opened(x, scope)], [Voice.Good])
    case PressUndoEnd(_, x) => story.log == [Granted(x, scope), Opened(x, scope)]
    case PressUndoFinish(_, x, ended) => TakenBack(story.log, x, scope, ended)
    case Done(ok) =>
      if ok then PressedWell(story, scope) else story.log == [] || TakenBackSomething(story.log, scope)
    case _ => false
  }

  /** The server granted a transmission, and its microphone was opened. */
  predicate PressedWell(story: Story, scope: VoiceScope) {
    && |story.log| == 2 && story.log[0].Granted? && story.heard == [Voice.Good]
    && story.log == [Granted(story.log[0].transmission, scope), Opened(story.log[0].transmission, scope)]
  }

  /** The server granted a transmission and was asked to end it again, which came last. */
  ghost predicate TakenBackSomething(log: seq<Observation>, scope: VoiceScope) {
    exists x, ended :: TakenBack(log, x, scope, ended)
  }

  lemma TakesBack(log: seq<Observation>, x: Transmission, scope: VoiceScope, open: bool, ended: bool)
    requires Begun(log, x, scope)
    ensures TakenBack(log + AskLog(x, open, ended), x, scope, ended)
  {
    var longer := log + AskLog(x, open, ended);
    assert longer[..|log|] == log && longer[|log|..] == AskLog(x, open, ended);
    AsksOnce(x, open, ended);
  }

  lemma AskTells(f: Fields, connection: Voice.Connection, pc: Pc, at: Voice.Pc, open: bool, choice: Choice, scope: VoiceScope, story: Story)
    requires PressStory(pc, at, scope, story) && !at.Returned?
    requires pc.PressCancelEnd? || pc.PressRollbackEnd? || pc.PressUndoEnd?
    ensures var next := PcSection(f, connection, pc, false, choice).next;
      PressStory(next, VoiceEntry(next), scope, Story(story.log + PcLog(f, pc, open, choice), story.heard + Answer(at)))
  {
    TakesBack(story.log, pc.transmission, scope, open, choice.ended);
  }

  lemma WithdrawTells(f: Fields, connection: Voice.Connection, pc: Pc, at: Voice.Pc, open: bool, choice: Choice, scope: VoiceScope, story: Story)
    requires PressStory(pc, at, scope, story) && !at.Returned?
    requires pc.PressCancelFinish? || pc.PressRollbackFinish? || pc.PressUndoFinish? || pc.Done?
    ensures var next := PcSection(f, connection, pc, false, choice).next;
      PressStory(next, VoiceEntry(next), scope, Story(story.log + PcLog(f, pc, open, choice), story.heard + Answer(at)))
  {
    assert story.log + [] == story.log && story.heard + [] == story.heard;
  }

  lemma BeginTells(f: Fields, connection: Voice.Connection, pc: Pc, at: Voice.Pc, open: bool, choice: Choice, scope: VoiceScope, story: Story)
    requires PressStory(pc, at, scope, story) && !at.Returned?
    requires pc.PressEnter? || pc.PressServer? || pc.PressStored?
    ensures var next := PcSection(f, connection, pc, false, choice).next;
      PressStory(next, VoiceEntry(next), scope, Story(story.log + PcLog(f, pc, open, choice), story.heard + Answer(at)))
  {
    assert story.log + [] == story.log && story.heard + [] == story.heard;
  }

  lemma ConfirmTells(f: Fields, connection: Voice.Connection, pc: Pc, at: Voice.Pc, open: bool, choice: Choice, scope: VoiceScope, story: Story)
    requires PressStory(pc, at, scope, story) && !at.Returned?
    requires pc.PressVoiceDone? || pc.PressConfirm?
    ensures var next := PcSection(f, connection, pc, false, choice).next;
      PressStory(next, VoiceEntry(next), scope, Story(story.log + PcLog(f, pc, open, choice), story.heard + Answer(at)))
  {
    assert story.log + [] == story.log && story.heard + [] == story.heard;
  }

  lemma CallTells(f: Fields, connection: Voice.Connection, pc: Pc, at: Voice.Pc, open: bool, choice: Choice, scope: VoiceScope, story: Story)
    requires PressStory(pc, at, scope, story) && at.Returned?
    requires pc.PressVoice? || pc.PressUndoVoice?
    ensures var next := PcSection(f, connection, pc, at == Voice.Returned(Voice.Good), choice).next;
      PressStory(next, VoiceEntry(next), scope, Story(story.log + PcLog(f, pc, open, choice), story.heard + Answer(at)))
  {
    assert story.log + [] == story.log;
  }

  /** A step in the voice client opens the microphone at most once, and not without its start. */
  lemma VoiceTells(v: Voice.Fields, microphone: bool, pc: Pc, at: Voice.Pc, choice: Voice.Choice, scope: VoiceScope, story: Story)
    requires PressStory(pc, at, scope, story) && VoiceFits(pc, at) && VoiceEntry(pc) != Voice.Outside && !at.Returned?
    ensures PressStory(pc, Voice.PcSection(v, microphone, at, choice).next, scope, Story(story.log + VoiceLog(pc, at), story.heard))
  {
    assert story.log + [] == story.log;
  }

  lemma PressStep(s: State, t: Tid, choice: Choice, scope: VoiceScope, story: Story)
    requires Inv(s) && Enabled(s, Stepped(t, choice)) && PressStory(s.threads[t], s.voice.threads[t], scope, story)
    ensures var s' := Step(s, t, choice);
      && t in s'.threads && t in s'.voice.threads
      && PressStory(s'.threads[t], s'.voice.threads[t], scope, Told(s, Stepped(t, choice), t, story))
  {
    var f, c, pc, at, open := s.fields, s.voice.fields.connection, s.threads[t], s.voice.threads[t], s.voice.microphone;
    assert Fits(f, s.log, s.voice.fields, t, pc, at);
    StepFacts(s, t, choice);
    StepTells(s, t, choice, story);
    if InVoice(s, t) {
      VoiceTells(s.voice.fields, open, pc, at, choice.voice, scope, story);
    } else if at.Returned? {
      CallTells(f, c, pc, at, open, choice, scope, story);
    } else if pc.PressCancelEnd? || pc.PressRollbackEnd? || pc.PressUndoEnd? {
      AskTells(f, c, pc, at, open, choice, scope, story);
    } else if pc.PressVoiceDone? || pc.PressConfirm? {
      ConfirmTells(f, c, pc, at, open, choice, scope, story);
    } else if pc.PressEnter? || pc.PressServer? || pc.PressStored? {
      BeginTells(f, c, pc, at, open, choice, scope, story);
    } else {
      WithdrawTells(f, c, pc, at, open, choice, scope, story);
    }
  }

  lemma PressNext(s: State, e: Event, t: Tid, scope: VoiceScope, story: Story)
    requires Inv(s) && Enabled(s, e) && t in s.threads && !(e.Called? && e.t == t)
    requires PressStory(s.threads[t], s.voice.threads[t], scope, story)
    ensures var s' := Next(s, e);
      && t in s'.threads && t in s'.voice.threads
      && PressStory(s'.threads[t], s'.voice.threads[t], scope, Told(s, e, t, story))
  {
    if e.Stepped? && e.t == t {
      PressStep(s, t, e.choice, scope, story);
    } else {
      OthersLeave(s, e, t);
    }
  }

  lemma {:induction false} PressRun(s: State, events: seq<Event>, t: Tid, scope: VoiceScope, story: Story)
    requires Inv(s) && CanRun(s, events) && t in s.threads && OneCall(events, t)
    requires PressStory(s.threads[t], s.voice.threads[t], scope, story)
    ensures var s' := Run(s, events);
      && t in s'.threads && t in s'.voice.threads
      && PressStory(s'.threads[t], s'.voice.threads[t], scope, Telling(s, events, t, story))
    decreases |events|
  {
    if events != [] {
      NextInv(s, events[0]);
      PressNext(s, events[0], t, scope, story);
      PressRun(Next(s, events[0]), events[1..], t, scope, Told(s, events[0], t, story));
    }
  }

  /**
   * A press that answers success has been granted its scope and has opened the microphone, and did nothing else; one that
   * fails has either got nothing or has last of all asked the server to end what it got.
   */
  lemma PressIsAnswered(s: State, events: seq<Event>, t: Tid, scope: VoiceScope)
    requires Inv(s) && CanRun(s, events) && t in s.threads && s.threads[t] == PressEnter(scope) && OneCall(events, t)
    requires t in Run(s, events).threads && Run(s, events).threads[t].Done?
    ensures var story := Telling(s, events, t, NOTHING_YET);
      if Run(s, events).threads[t].ok
      then |story.log| == 2 && story.log[0].Granted? && story.heard == [Voice.Good]
        && story.log == [Granted(story.log[0].transmission, scope), Opened(story.log[0].transmission, scope)]
      else story.log == [] || exists x, ended :: TakenBack(story.log, x, scope, ended)
  {
    assert Fits(s.fields, s.log, s.voice.fields, t, s.threads[t], s.voice.threads[t]);
    PressRun(s, events, t, scope, NOTHING_YET);
  }

  // ---------------------------------------------------------------- the single steps of a press

  /**
   * A press goes on from its first section exactly if push-to-talk is enabled, the transport connected and nothing under way;
   * it then asks the server at the version of the stored membership.
   */
  lemma PressBeginsExactly(s: State, t: Tid, choice: Choice)
    requires Inv(s) && t in s.threads && s.threads[t].PressEnter?
    ensures var f, s' := s.fields, Step(s, t, choice);
      && t in s'.threads
      && if f.enabled && f.membership.Some? && s.voice.fields.connection == Voice.Connected && f.publication == Voice.Idle && f.active.None?
         then s'.threads[t] == PressServer(f.generation + 1, s.threads[t].scope, f.membership.value)
           && s'.fields == f.(generation := f.generation + 1, publication := Voice.Starting, lastRelease := true)
         else s'.threads[t] == Done(false) && s'.fields == f
  {
    NotReturned(s, t);
    SectionStep(s, t, choice);
  }

  lemma ConfirmSection(f: Fields, log: seq<Observation>, v: Voice.Fields, t: Tid, pc: Pc, at: Voice.Pc, good: bool, choice: Choice)
    requires (pc.PressEnter? || IsPresser(pc)) && Fits(f, log, v, t, pc, at)
    ensures var section := PcSection(f, v.connection, pc, good, choice);
      && (section.next == Done(true) <==> f.publication != Voice.Active && section.fields.publication == Voice.Active)
      && (section.next == Done(true) ==> pc.PressConfirm? && section.fields == f.(publication := Voice.Active))
      && (pc.PressConfirm? ==> (section.next == Done(true) <==> f.publication == Voice.Starting))
  {}

  /** It answers success exactly in the step that makes the publication active: the confirmation, unless a release came first. */
  lemma PressSucceedsExactly(s: State, t: Tid, choice: Choice)
    requires Inv(s) && t in s.threads && (s.threads[t].PressEnter? || IsPresser(s.threads[t]))
    ensures var s' := Step(s, t, choice);
      && t in s'.threads
      && (s'.threads[t] == Done(true) <==> s.fields.publication != Voice.Active && s'.fields.publication == Voice.Active)
      && (s'.threads[t] == Done(true) ==> s.threads[t].PressConfirm? && s'.fields == s.fields.(publication := Voice.Active))
      && (s.threads[t].PressConfirm? ==> (s'.threads[t] == Done(true) <==> s.fields.publication == Voice.Starting))
  {
    var pc, at := s.threads[t], s.voice.threads[t];
    assert Fits(s.fields, s.log, s.voice.fields, t, pc, at);
    StepFacts(s, t, choice);
    if !InVoice(s, t) { ConfirmSection(s.fields, s.log, s.voice.fields, t, pc, at, at == Voice.Returned(Voice.Good), choice); }
  }

  /** A press that takes its transmission back fails, and tells the releases waiting for it whether the server ended it. */
  lemma WithdrawnPressFails(s: State, t: Tid, choice: Choice)
    requires Inv(s) && t in s.threads
    requires s.threads[t].PressCancelFinish? || s.threads[t].PressRollbackFinish? || s.threads[t].PressUndoFinish?
    ensures var f, s' := s.fields, Step(s, t, choice);
      && t in s'.threads && s'.threads[t] == Done(false)
      && s'.fields == f.(publication := Voice.Idle, lastRelease := s.threads[t].ended, active := if s.threads[t].ended then None else f.active)
  {
    OwnerKeepsGeneration(s, t);
    NotReturned(s, t);
    SectionStep(s, t, choice);
  }

  /** A press the server refuses fails and leaves no transmission behind. */
  lemma RefusedPressFails(s: State, t: Tid, choice: Choice)
    requires Inv(s) && t in s.threads && s.threads[t].PressStored? && s.threads[t].granted.None?
    ensures var s' := Step(s, t, choice);
      && t in s'.threads && s'.threads[t] == Done(false)
      && s'.fields == s.fields.(publication := Voice.Idle) && s'.fields.active.None?
  {
    assert Fits(s.fields, s.log, s.voice.fields, t, s.threads[t], s.voice.threads[t]);
    StepFacts(s, t, choice);
  }

  /** Ending an interrupted transmission answers success exactly if none is left. */
  lemma CleanIsAnswered(s: State, t: Tid, choice: Choice)
    requires Inv(s) && t in s.threads && s.threads[t].Clean?
    ensures var s' := Step(s, t, choice);
      && t in s'.threads
      && (s'.threads[t] == Done(false) <==> s'.fields.active.Some?)
      && s'.threads[t] == if s'.fields.active.Some? then Done(false)
                          else if s.threads[t].after.Alone? then Done(true) else Close(s.threads[t].after)
  {
    NotReturned(s, t);
    SectionStep(s, t, choice);
  }
}
