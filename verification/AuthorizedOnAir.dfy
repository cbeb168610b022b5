/** Which transmission is heard in which room, and which membership the client acts on. */
module AuthorizedOnAir {
  import opened Basics
  import Voice = VoiceClient
  import opened AuthorizedVoiceClient
  import opened AuthorizedAnswers

  // ---------------------------------------------------------------- the scope on air is the granted one

  /** The transmission a thread has opened the microphone for. */
  predicate Speaks(pc: Pc, x: Transmission) {
    || (pc.PressVoice? && pc.transmission == x)
    || (pc.PressVoiceDone? && pc.transmission == x)
    || (pc.PressConfirm? && pc.transmission == x)
    || (pc.PressUndoVoice? && pc.transmission == x)
    || (pc.ReleaseVoice? && pc.transmission == x)
  }

  /** A presser below that has started the microphone has been observed to. */
  predicate StartSeen(log: seq<Observation>, pc: Pc, at: Voice.Pc) {
    pc.PressVoice? && at.PressCheck? ==> Opened(pc.transmission, at.scope) in log
  }

  /** The active scope below was opened for the transmission of the thread that is about to close it. */
  ghost predicate SpeakerSeen(log: seq<Observation>, v: Voice.Fields, pc: Pc) {
    v.publication == Voice.Active ==> v.activeScope.Some? && forall x :: Speaks(pc, x) ==> Opened(x, v.activeScope.value) in log
  }

  /** And for the active transmission. */
  predicate ActiveSeen(f: Fields, log: seq<Observation>, v: Voice.Fields) {
    v.publication == Voice.Active ==>
      v.activeScope.Some? && (f.active.Some? ==> Opened(f.active.value, v.activeScope.value) in log)
  }

  ghost predicate Seen(log: seq<Observation>, v: Voice.Fields, pc: Pc, at: Voice.Pc) { StartSeen(log, pc, at) && SpeakerSeen(log, v, pc) }

  ghost predicate OnAir(s: State)
    requires Wired(s)
  {
    && ActiveSeen(s.fields, s.log, s.voice.fields)
    && forall t <- s.threads :: Seen(s.log, s.voice.fields, s.threads[t], s.voice.threads[t])
  }

  /** What is seen stays seen while the voice client keeps what it is doing. */
  lemma SeenRemains(log: seq<Observation>, longer: seq<Observation>, v: Voice.Fields, pc: Pc, at: Voice.Pc)
    requires log <= longer && Seen(log, v, pc, at)
    ensures Seen(longer, v, pc, at) && Seen(longer, v, Wake(pc), Voice.Wake(at)) && Seen(longer, v, Wake(pc), at) && Seen(longer, v, pc, Voice.Wake(at))
  {
    LogRemains(log, longer);
  }

  /** A thread's own section speaks for no transmission that was not already heard. */
  lemma OwnSeen(f: Fields, log: seq<Observation>, v: Voice.Fields, t: Tid, pc: Pc, at: Voice.Pc, good: bool, choice: Choice)
    requires Fits(f, log, v, t, pc, at) && FieldsFit(f, log, v) && ActiveSeen(f, log, v) && Seen(log, v, pc, at)
    requires VoiceEntry(pc) != Voice.Outside ==> at.Returned?
    ensures var section := PcSection(f, v.connection, pc, good, choice);
      ActiveSeen(section.fields, log, v) && Seen(log, v, section.next, VoiceEntry(section.next))
  {}

  /** A thread's step in the voice client puts on air only the scope it has just opened, and only as the owner. */
  lemma BelowSeen(f: Fields, log: seq<Observation>, v: Voice.Fields, t: Tid, pc: Pc, at: Voice.Pc, microphone: bool, choice: Voice.Choice)
    requires Fits(f, log, v, t, pc, at) && FieldsFit(f, log, v) && Voice.Fits(v, at) && ActiveSeen(f, log, v) && Seen(log, v, pc, at)
    requires VoiceEntry(pc) != Voice.Outside && !at.Returned?
    ensures var section, longer := Voice.PcSection(v, microphone, at, choice), log + VoiceLog(pc, at);
      && ActiveSeen(f, longer, section.fields) && Seen(longer, section.fields, pc, section.next)
      && (section.fields.publication == Voice.Active ==>
            IsOwner(pc) || (v.publication == Voice.Active && section.fields.activeScope == v.activeScope))
  {
    var longer := log + VoiceLog(pc, at);
    LogRemains(log, longer);
    if pc.PressVoice? && at.PressStart? { assert longer[|log|] == Opened(pc.transmission, at.scope); }
  }

  /** Nobody but the owner speaks, so the others see what they saw. */
  lemma OtherSeen(log: seq<Observation>, longer: seq<Observation>, v: Voice.Fields, w: Voice.Fields, pc: Pc, at: Voice.Pc, wake: bool, wakeBelow: bool)
    requires log <= longer && Seen(log, v, pc, at)
    requires w.publication == Voice.Active ==>
      || (!IsOwner(pc) && w.activeScope.Some?)
      || (v.publication == Voice.Active && w.activeScope == v.activeScope)
    ensures Seen(longer, w, if wake then Wake(pc) else pc, if wakeBelow then Voice.Wake(at) else at)
  {
    LogRemains(log, longer);
  }

  lemma VoiceStepOnAir(s: State, t: Tid, choice: Choice)
    requires Inv(s) && OnAir(s) && t in s.threads && InVoice(s, t)
    ensures var s' := Step(s, t, choice); Wired(s') && OnAir(s')
  {
    var s', pc, at, v := Step(s, t, choice), s.threads[t], s.voice.threads[t], s.voice.fields;
    StepFacts(s, t, choice);
    assert Fits(s.fields, s.log, v, t, pc, at) && Voice.Fits(v, at) && Seen(s.log, v, pc, at);
    BelowSeen(s.fields, s.log, v, t, pc, at, s.voice.microphone, choice.voice);
    VoiceStepLogs(s, t, choice);
    forall u <- s'.threads ensures Seen(s'.log, s'.voice.fields, s'.threads[u], s'.voice.threads[u]) {
      if u != t {
        assert Seen(s.log, v, s.threads[u], s.voice.threads[u]) && (IsOwner(pc) ==> !IsOwner(s.threads[u]));
        OtherSeen(s.log, s'.log, v, s'.voice.fields, s.threads[u], s.voice.threads[u], s'.threads[u] != s.threads[u],
                  s'.voice.threads[u] != s.voice.threads[u]);
      }
    }
  }

  lemma VoiceStepLogs(s: State, t: Tid, choice: Choice)
    requires Wired(s) && t in s.threads && InVoice(s, t)
    ensures var s' := Step(s, t, choice);
      && s'.log == s.log + VoiceLog(s.threads[t], s.voice.threads[t])
      && s'.voice.fields == Voice.PcSection(s.voice.fields, s.voice.microphone, s.voice.threads[t], choice.voice).fields
  {
    assert s.log + [] == s.log;
  }

  lemma OwnStepOnAir(s: State, t: Tid, choice: Choice)
    requires Inv(s) && OnAir(s) && t in s.threads && !InVoice(s, t)
    ensures var s' := Step(s, t, choice); Wired(s') && OnAir(s')
  {
    var s', pc, at, v := Step(s, t, choice), s.threads[t], s.voice.threads[t], s.voice.fields;
    StepFacts(s, t, choice);
    assert Fits(s.fields, s.log, v, t, pc, at) && Seen(s.log, v, pc, at);
    OwnSeen(s.fields, s.log, v, t, pc, at, at == Voice.Returned(Voice.Good), choice);
    OwnStepOthersSee(s, s', t);
  }

  lemma OwnStepOthersSee(s: State, s': State, t: Tid)
    requires Wired(s) && Wired(s') && OnAir(s) && t in s.threads && s'.threads.Keys == s.threads.Keys
    requires s.log <= s'.log && s'.voice.fields == s.voice.fields
    requires ActiveSeen(s'.fields, s.log, s.voice.fields) && Seen(s.log, s.voice.fields, s'.threads[t], s'.voice.threads[t])
    requires forall u <- s.threads :: u != t ==>
      && (s'.threads[u] == s.threads[u] || s'.threads[u] == Wake(s.threads[u]))
      && (s'.voice.threads[u] == s.voice.threads[u] || s'.voice.threads[u] == Voice.Wake(s.voice.threads[u]))
    ensures OnAir(s')
  {
    LogRemains(s.log, s'.log);
    forall u <- s'.threads ensures Seen(s'.log, s'.voice.fields, s'.threads[u], s'.voice.threads[u]) {
      if u == t {
        SeenRemains(s.log, s'.log, s.voice.fields, s'.threads[t], s'.voice.threads[t]);
      } else {
        assert Seen(s.log, s.voice.fields, s.threads[u], s.voice.threads[u]);
        SeenRemains(s.log, s'.log, s.voice.fields, s.threads[u], s.voice.threads[u]);
      }
    }
  }

  /** A call, and a wake-up here or below, change neither log nor fields. */
  lemma OtherOnAir(s: State, s': State)
    requires Wired(s) && OnAir(s) && Wired(s') && s'.threads.Keys == s.threads.Keys
    requires s'.fields == s.fields && s'.log == s.log
    requires s'.voice.fields.publication == Voice.Active ==>
      s.voice.fields.publication == Voice.Active && s'.voice.fields.activeScope == s.voice.fields.activeScope
    requires forall u <- s.threads ::
      || (IsCall(s'.threads[u]) && s'.voice.threads[u] == VoiceEntry(s'.threads[u]))
      || ((s'.threads[u] == s.threads[u] || s'.threads[u] == Wake(s.threads[u]))
          && (s'.voice.threads[u] == s.voice.threads[u] || s'.voice.threads[u] == Voice.Wake(s.voice.threads[u])))
    ensures OnAir(s')
  {
    forall u <- s'.threads ensures Seen(s'.log, s'.voice.fields, s'.threads[u], s'.voice.threads[u]) {
      if !IsCall(s'.threads[u]) {
        assert Seen(s.log, s.voice.fields, s.threads[u], s.voice.threads[u]);
        OtherSeen(s.log, s.log, s.voice.fields, s'.voice.fields, s.threads[u], s.voice.threads[u],
                  s'.threads[u] != s.threads[u], s'.voice.threads[u] != s.voice.threads[u]);
      }
    }
  }

  predicate IsCall(pc: Pc) { IsEntry(LIFECYCLE, pc) }

  lemma CallOnAir(s: State, t: Tid, entry: Pc)
    requires Wired(s) && OnAir(s) && t in s.threads && IsEntry(t, entry)
    ensures Wired(Goto(s, t, entry)) && OnAir(Goto(s, t, entry))
  {
    OtherOnAir(s, Goto(s, t, entry));
  }

  /** Calls, reports and wake-ups put nothing on air. */
  lemma OtherEventsOnAir(s: State, e: Event)
    requires Inv(s) && OnAir(s) && Enabled(s, e) && !e.Stepped?
    ensures Wired(Next(s, e)) && OnAir(Next(s, e))
  {
    if e.Called? { CallOnAir(s, e.t, e.entry); } else { OtherOnAir(s, Next(s, e)); }
  }

  lemma {:induction false} OnAirRun(s: State, events: seq<Event>)
    requires Inv(s) && OnAir(s) && CanRun(s, events)
    ensures Inv(Run(s, events)) && OnAir(Run(s, events))
    decreases |events|
  {
    if events != [] {
      var e := events[0];
      NextInv(s, e);
      if !e.Stepped? { OtherEventsOnAir(s, e); }
      else if InVoice(s, e.t) { VoiceStepOnAir(s, e.t, e.choice); }
      else { OwnStepOnAir(s, e.t, e.choice); }
      OnAirRun(Next(s, e), events[1..]);
    }
  }

  /**
   * Whenever the voice client below is active, in every run, it names a scope; and the microphone has been opened in that
   * scope for the transmission that is active, or that a thread is confirming or ending.
   */
  lemma OnAirIsOpened(s: State, events: seq<Event>, x: Transmission)
    requires Init(s) && CanRun(s, events) && Run(s, events).voice.fields.publication == Voice.Active
    requires var s' := Run(s, events);
      s'.fields.active == Some(x) || exists t :: t in s'.threads && Speaks(s'.threads[t], x)
    ensures var s' := Run(s, events);
      s'.voice.fields.activeScope.Some? && Opened(x, s'.voice.fields.activeScope.value) in s'.log
  {
    InitInv(s);
    OnAirRun(s, events);
    var s' := Run(s, events);
    if s'.fields.active != Some(x) {
      var t :| t in s'.threads && Speaks(s'.threads[t], x);
      assert Seen(s'.log, s'.voice.fields, s'.threads[t], s'.voice.threads[t]);
    }
  }

  // ---------------------------------------------------------------- the membership in use

  /** A refresh under way carries a newer version than the stored one, and a press asks at exactly that. */
  predicate Versioned(f: Fields, pc: Pc) {
    match pc
    case PressServer(_, _, version) => f.membership == Some(version)
    case RefreshFetch(known) => f.membership == Some(known)
    case RefreshSuspend(version) => Newer(f, version)
    case Open(version) => Newer(f, version)
    case Enable(version) => Newer(f, version)
    case Close(after) => after.Refreshing? ==> Newer(f, after.version)
    case _ => AfterOf(pc).Refreshing? ==> Newer(f, AfterOf(pc).version)
  }

  predicate Newer(f: Fields, version: Version) { f.membership.Some? ==> f.membership.value < version }

  ghost predicate AllVersioned(s: State) { forall t <- s.threads :: Versioned(s.fields, s.threads[t]) }

  lemma ReleaseVersioned(f: Fields, connection: Voice.Connection, pc: Pc, good: bool, choice: Choice)
    requires Versioned(f, pc) && (IsReleaser(pc) || IsOwner(pc) || pc.PressEnter? || pc.Outside? || pc.Done?)
    ensures var section := PcSection(f, connection, pc, good, choice);
      Versioned(section.fields, section.next) && section.fields.membership == f.membership
  {}

  predicate IsReleaser(pc: Pc) { pc.ReleaseEnter? || pc.ReleaseCancel? || pc.ReleaseWait? || pc.Clean? }

  lemma LifecycleVersioned(f: Fields, log: seq<Observation>, v: Voice.Fields, t: Tid, pc: Pc, at: Voice.Pc, good: bool, choice: Choice)
    requires Fits(f, log, v, t, pc, at) && Versioned(f, pc)
    requires !IsReleaser(pc) && !IsOwner(pc) && !pc.PressEnter? && !pc.Outside? && !pc.Done?
    ensures var section := PcSection(f, v.connection, pc, good, choice);
      && Versioned(section.fields, section.next)
      && (section.fields.membership != f.membership ==> t == LIFECYCLE && f.publication == Voice.Idle)
      && (section.fields.membership.Some? && f.membership.Some? ==>
            section.fields.membership == f.membership || section.fields.membership.value > f.membership.value)
  {}

  lemma OwnVersioned(f: Fields, log: seq<Observation>, v: Voice.Fields, t: Tid, pc: Pc, at: Voice.Pc, good: bool, choice: Choice)
    requires Fits(f, log, v, t, pc, at) && Versioned(f, pc)
    ensures var section := PcSection(f, v.connection, pc, good, choice);
      && Versioned(section.fields, section.next)
      && (section.fields.membership != f.membership ==> t == LIFECYCLE && f.publication == Voice.Idle)
      && (section.fields.membership.Some? && f.membership.Some? ==>
            section.fields.membership == f.membership || section.fields.membership.value > f.membership.value)
  {
    if IsReleaser(pc) || IsOwner(pc) || pc.PressEnter? || pc.Outside? || pc.Done? {
      ReleaseVersioned(f, v.connection, pc, good, choice);
    } else {
      LifecycleVersioned(f, log, v, t, pc, at, good, choice);
    }
  }

  lemma OtherVersioned(f: Fields, g: Fields, log: seq<Observation>, v: Voice.Fields, u: Tid, pc: Pc, at: Voice.Pc)
    requires Fits(f, log, v, u, pc, at) && Versioned(f, pc)
    requires g.membership == f.membership || (u != LIFECYCLE && f.publication == Voice.Idle)
    ensures Versioned(g, pc) && Versioned(g, Wake(pc))
  {}

  lemma StepVersioned(s: State, t: Tid, choice: Choice)
    requires Inv(s) && t in s.threads && AllVersioned(s)
    ensures var s' := Step(s, t, choice);
      && AllVersioned(s')
      && (s.fields.membership.Some? && s'.fields.membership.Some? ==>
            s.fields.membership == s'.fields.membership || s.fields.membership.value < s'.fields.membership.value)
  {
    var s', pc, at := Step(s, t, choice), s.threads[t], s.voice.threads[t];
    StepFacts(s, t, choice);
    assert Fits(s.fields, s.log, s.voice.fields, t, pc, at) && Versioned(s.fields, pc);
    if !InVoice(s, t) {
      OwnVersioned(s.fields, s.log, s.voice.fields, t, pc, at, at == Voice.Returned(Voice.Good), choice);
    }
    OthersVersioned(s, s', t);
  }

  lemma OthersVersioned(s: State, s': State, t: Tid)
    requires Inv(s) && AllVersioned(s) && t in s.threads && s'.threads.Keys == s.threads.Keys && Versioned(s'.fields, s'.threads[t])
    requires s'.fields.membership != s.fields.membership ==> t == LIFECYCLE && s.fields.publication == Voice.Idle
    requires forall u <- s.threads :: u != t ==> s'.threads[u] == s.threads[u] || s'.threads[u] == Wake(s.threads[u])
    ensures AllVersioned(s')
  {
    forall u <- s'.threads ensures Versioned(s'.fields, s'.threads[u]) {
      if u != t {
        assert Fits(s.fields, s.log, s.voice.fields, u, s.threads[u], s.voice.threads[u]) && Versioned(s.fields, s.threads[u]);
        OtherVersioned(s.fields, s'.fields, s.log, s.voice.fields, u, s.threads[u], s.voice.threads[u]);
      }
    }
  }

  lemma NextVersioned(s: State, e: Event)
    requires Inv(s) && Enabled(s, e) && AllVersioned(s)
    ensures AllVersioned(Next(s, e))
    ensures var a, b := s.fields.membership, Next(s, e).fields.membership;
      a.Some? && b.Some? ==> a == b || a.value < b.value
  {
    if e.Stepped? {
      StepVersioned(s, e.t, e.choice);
    } else {
      OtherEventsVersioned(s, e);
    }
  }

  lemma OtherEventsVersioned(s: State, e: Event)
    requires Enabled(s, e) && AllVersioned(s) && !e.Stepped?
    ensures AllVersioned(Next(s, e)) && Next(s, e).fields == s.fields
  {
    forall u <- Next(s, e).threads ensures Versioned(s.fields, Next(s, e).threads[u]) {
      assert Versioned(s.fields, s.threads[u]);
    }
  }

  lemma {:induction false} RunVersioned(s: State, events: seq<Event>)
    requires Inv(s) && AllVersioned(s) && CanRun(s, events)
    ensures Inv(Run(s, events)) && AllVersioned(Run(s, events))
    decreases |events|
  {
    if events != [] {
      NextInv(s, events[0]);
      NextVersioned(s, events[0]);
      RunVersioned(Next(s, events[0]), events[1..]);
    }
  }

  /** Until it disconnects, the client never goes back to an older membership; and every press asks at the stored version. */
  lemma VersionsNeverFall(s: State, events: seq<Event>, e: Event)
    requires Init(s) && CanRun(s, events) && Enabled(Run(s, events), e)
    ensures var s' := Run(s, events);
      && (forall t <- s'.threads :: s'.threads[t].PressServer? ==> s'.fields.membership == Some(s'.threads[t].version))
      && var a, b := s'.fields.membership, Next(s', e).fields.membership;
         a.Some? && b.Some? ==> a == b || a.value < b.value
  {
    InitInv(s);
    RunVersioned(s, events);
    var s' := Run(s, events);
    NextVersioned(s', e);
    assert forall t <- s'.threads :: Versioned(s'.fields, s'.threads[t]);
  }

  lemma FetchLeads(f: Fields, connection: Voice.Connection, pc: Pc, choice: Choice)
    requires pc.RefreshFetch?
    ensures var section := PcSection(f, connection, pc, false, choice);
      && section.fields == f && (section.next.Done? || section.next.RefreshSuspend?)
      && (section.next == Done(true) <==> choice.version == Some(pc.known))
      && (section.next.RefreshSuspend? <==> choice.version.Some? && pc.known < choice.version.value && choice.grantsMatch)
      && (section.next.RefreshSuspend? ==> section.next.version == choice.version.value)
  {}

  /** What a fetched membership leads to: an older one is refused, an equal one is fine, a newer one only with its own grants. */
  lemma RefreshIsAnswered(s: State, t: Tid, choice: Choice)
    requires Inv(s) && t in s.threads && s.threads[t].RefreshFetch?
    ensures var known, s' := s.threads[t].known, Step(s, t, choice);
      && t in s'.threads && s'.fields == s.fields
      && (s'.threads[t] == Done(true) <==> choice.version == Some(known))
      && (s'.threads[t].RefreshSuspend? <==> choice.version.Some? && known < choice.version.value && choice.grantsMatch)
      && (s'.threads[t].RefreshSuspend? ==> s'.threads[t].version == choice.version.value)
      && (s'.threads[t].Done? || s'.threads[t].RefreshSuspend?)
  {
    NotReturned(s, t);
    SectionStep(s, t, choice);
    FetchLeads(s.fields, s.voice.fields.connection, s.threads[t], choice);
  }
}
