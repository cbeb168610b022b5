/** What connecting, disconnecting and refreshing the authorised client answer. */
module AuthorizedLifecycle {
  import opened Basics
  import Voice = VoiceClient
  import opened AuthorizedVoiceClient
  import opened AuthorizedAnswers

  // ---------------------------------------------------------------- single steps

  /** Connecting goes on only from nothing, refreshing only from a membership and a transport that is not down. */
  lemma LifecycleBegins(s: State, t: Tid, choice: Choice)
    requires Inv(s) && t in s.threads && (s.threads[t].ConnectEnter? || s.threads[t].RefreshEnter?)
    ensures var f, down, s' := s.fields, s.voice.fields.connection == Voice.Disconnected, Step(s, t, choice);
      && t in s'.threads && s'.fields == f
      && (s.threads[t].ConnectEnter? ==> s'.threads[t] == if f.membership.None? && down then ConnectFetch else Done(false))
      && (s.threads[t].RefreshEnter? ==>
            s'.threads[t] == if f.membership.Some? && !down then RefreshFetch(f.membership.value) else Done(false))
  {
    NotReturned(s, t);
    SectionStep(s, t, choice);
  }

  /** A connect opens the transport only with a fetched membership whose grants match it. */
  lemma FetchedIsOpened(s: State, t: Tid, choice: Choice)
    requires Inv(s) && t in s.threads && s.threads[t].ConnectFetch?
    ensures var s' := Step(s, t, choice);
      && t in s'.threads && s'.fields == s.fields
      && s'.threads[t] == if choice.version.Some? && choice.grantsMatch then Open(choice.version.value) else Done(false)
  {
    NotReturned(s, t);
    SectionStep(s, t, choice);
  }

  /** A disconnect or refresh first forbids further presses; it releases a publication in progress before it goes on. */
  lemma SuspensionBegins(s: State, t: Tid, choice: Choice)
    requires Inv(s) && t in s.threads && (s.threads[t].DisconnectEnter? || s.threads[t].RefreshSuspend?)
    ensures var s' := Step(s, t, choice);
      var after := if s.threads[t].DisconnectEnter? then Disconnecting else Refreshing(s.threads[t].version);
      && t in s'.threads && s'.fields == s.fields.(enabled := false)
      && s'.threads[t] == if s.fields.publication == Voice.Idle then Clean(after) else ReleaseEnter(after)
  {
    NotReturned(s, t);
    SectionStep(s, t, choice);
  }

  /** The last sections: the membership is forgotten, or the new one is stored and presses are allowed again. */
  lemma LifecycleEnds(s: State, t: Tid, choice: Choice)
    requires Inv(s) && t in s.threads && (s.threads[t].Forget? || s.threads[t].Reset? || s.threads[t].Enable?)
    ensures var s' := Step(s, t, choice);
      && t in s'.threads && s'.threads[t] == Done(!s.threads[t].Reset?)
      && s'.fields == if s.threads[t].Enable? then s.fields.(membership := Some(s.threads[t].version), enabled := true)
                      else s.fields.(membership := None)
  {
    NotReturned(s, t);
    SectionStep(s, t, choice);
  }

  // ---------------------------------------------------------------- whole operations

  /** What a suspended operation has been told by the voice client since it ended the interrupted transmission. */
  predicate SuspendedStory(pc: Pc, after: After, heard: seq<Voice.Outcome>) {
    match pc
    case Clean(a) => a == after && heard == []
    case Close(a) => a == after && heard == []
    case Forget => after.Disconnecting? && heard == [Voice.Good]
    case Open(version) => after == Refreshing(version) && heard == [Voice.Good]
    case Enable(version) => after == Refreshing(version) && heard == [Voice.Good, Voice.Good]
    case Reset => after.Refreshing? && |heard| == 2 && heard[0] == Voice.Good && heard[1] != Voice.Good
    case Done(ok) =>
      if ok then heard == if after.Refreshing? then [Voice.Good, Voice.Good] else [Voice.Good]
      else heard == [] || heard[|heard| - 1] != Voice.Good
    case _ => false
  }

  /** What a connect has been told by the voice client. */
  predicate ConnectStory(pc: Pc, heard: seq<Voice.Outcome>) {
    match pc
    case ConnectEnter => heard == []
    case ConnectFetch => heard == []
    case Open(_) => heard == []
    case Enable(_) => heard == [Voice.Good]
    case Reset => |heard| == 1 && heard[0] != Voice.Good
    case Done(ok) => if ok then heard == [Voice.Good] else heard == [] || heard[|heard| - 1] != Voice.Good
    case _ => false
  }

  lemma SuspendedTells(f: Fields, connection: Voice.Connection, pc: Pc, at: Voice.Pc, choice: Choice, after: After, heard: seq<Voice.Outcome>)
    requires !after.Alone? && SuspendedStory(pc, after, heard) && (VoiceEntry(pc) == Voice.Outside <==> !at.Returned?)
    ensures SuspendedStory(PcSection(f, connection, pc, at == Voice.Returned(Voice.Good), choice).next, after, heard + Answer(at))
  {
    assert heard + [] == heard;
  }

  lemma ConnectTells(f: Fields, connection: Voice.Connection, pc: Pc, at: Voice.Pc, choice: Choice, heard: seq<Voice.Outcome>)
    requires ConnectStory(pc, heard) && (VoiceEntry(pc) == Voice.Outside <==> !at.Returned?)
    ensures ConnectStory(PcSection(f, connection, pc, at == Voice.Returned(Voice.Good), choice).next, heard + Answer(at))
  {
    assert heard + [] == heard;
  }

  lemma LifecycleStep(s: State, t: Tid, choice: Choice, after: After, story: Story)
    requires Inv(s) && Enabled(s, Stepped(t, choice))
    ensures var s', told := Step(s, t, choice), Told(s, Stepped(t, choice), t, story);
      && t in s'.threads
      && (!after.Alone? && SuspendedStory(s.threads[t], after, story.heard) ==> SuspendedStory(s'.threads[t], after, told.heard))
      && (ConnectStory(s.threads[t], story.heard) ==> ConnectStory(s'.threads[t], told.heard))
  {
    StepFacts(s, t, choice);
    StepTells(s, t, choice, story);
    var f, connection, pc, at := s.fields, s.voice.fields.connection, s.threads[t], s.voice.threads[t];
    if !InVoice(s, t) {
      if !after.Alone? && SuspendedStory(pc, after, story.heard) { SuspendedTells(f, connection, pc, at, choice, after, story.heard); }
      if ConnectStory(pc, story.heard) { ConnectTells(f, connection, pc, at, choice, story.heard); }
    }
  }

  lemma {:induction false} LifecycleRun(s: State, events: seq<Event>, t: Tid, after: After, story: Story)
    requires Inv(s) && CanRun(s, events) && t in s.threads && OneCall(events, t)
    ensures var s', told := Run(s, events), Telling(s, events, t, story);
      && t in s'.threads
      && (!after.Alone? && SuspendedStory(s.threads[t], after, story.heard) ==> SuspendedStory(s'.threads[t], after, told.heard))
      && (ConnectStory(s.threads[t], story.heard) ==> ConnectStory(s'.threads[t], told.heard))
    decreases |events|
  {
    if events != [] {
      var e := events[0];
      NextInv(s, e);
      if e.Stepped? && e.t == t { LifecycleStep(s, t, e.choice, after, story); } else { OthersLeave(s, e, t); }
      LifecycleRun(Next(s, e), events[1..], t, after, Told(s, e, t, story));
    }
  }

  /** A disconnect succeeds exactly if the voice client's did; a refresh exactly if the voice client was closed and opened again. */
  lemma SuspensionIsAnswered(s: State, events: seq<Event>, t: Tid, after: After)
    requires Inv(s) && CanRun(s, events) && t in s.threads && s.threads[t] == Clean(after) && !after.Alone? && OneCall(events, t)
    requires t in Run(s, events).threads && Run(s, events).threads[t].Done?
    ensures var heard := Telling(s, events, t, NOTHING_YET).heard;
      Run(s, events).threads[t].ok <==> heard == if after.Refreshing? then [Voice.Good, Voice.Good] else [Voice.Good]
  {
    LifecycleRun(s, events, t, after, NOTHING_YET);
  }

  /** A connect succeeds exactly if the voice client's did. */
  lemma ConnectIsAnswered(s: State, events: seq<Event>, t: Tid)
    requires Inv(s) && CanRun(s, events) && t in s.threads && s.threads[t] == ConnectEnter && OneCall(events, t)
    requires t in Run(s, events).threads && Run(s, events).threads[t].Done?
    ensures Run(s, events).threads[t].ok <==> Telling(s, events, t, NOTHING_YET).heard == [Voice.Good]
  {
    LifecycleRun(s, events, t, Alone, NOTHING_YET);
  }
}
