/**
 * Microphone publication in the voice client.
 *
 * Every critical section of the client is one atomic step; the calls into the transport
 * are steps of their own, made while the lock is free.  Any number of threads call press,
 * release, connect and disconnect at any time, and the transport may report a new
 * connection state between any two steps.
 */
module VoiceClient {
  import opened Basics

  type Tid = nat

  datatype Connection = Disconnected | Connecting | Connected | Reconnecting
  datatype Publication = Idle | Starting | Active | Stopping

  /** The outcomes of a transport operation the client distinguishes. */
  datatype Outcome = Good | InvalidState | Broken

  /** The fields guarded by the client's mutex. */
  datatype Fields = Fields(
    connection: Connection,
    publication: Publication,
    generation: nat,
    activeScope: Option<VoiceScope>,
    lastStop: Outcome)

  /** Where a thread stands inside the client.  `closing` marks a release made by disconnect. */
  datatype Pc =
    | Outside
    | Returned(result: Outcome)
    | PressEnter(scope: VoiceScope)
    | PressStart(generation: nat, scope: VoiceScope)
    | PressCheck(generation: nat, scope: VoiceScope, started: Outcome)
    | PressQuery(generation: nat, started: Outcome)
    | PressStop(generation: nat, started: Outcome)
    | PressFinish(generation: nat, started: Outcome, stopped: Outcome)
    | ReleaseEnter(closing: bool)
    | ReleaseWait(generation: nat, closing: bool, asleep: bool)
    | ReleaseStop(generation: nat, closing: bool)
    | ReleaseFinish(generation: nat, closing: bool, stopped: Outcome)
    | ConnectEnter
    | ConnectTransport
    | ConnectFail(error: Outcome)
    | CloseEnter
    | CloseTransport
    | CloseFinish

  /** What one critical section does: the new fields, the next position, and whether it notifies. */
  datatype Section = Section(fields: Fields, next: Pc, notify: bool)

  const INITIAL_FIELDS := Fields(Disconnected, Idle, 0, None, Good)

  // ---------------------------------------------------------------- critical sections

  function PressEnterSection(f: Fields, scope: VoiceScope): Section {
    if f.connection != Connected || f.publication != Idle then
      Section(f, Returned(InvalidState), false)
    else
      Section(f.(generation := f.generation + 1, publication := Starting, activeScope := None, lastStop := Good),
              PressStart(f.generation + 1, scope), false)
  }

  function PressCheckSection(f: Fields, generation: nat, scope: VoiceScope, started: Outcome): Section {
    if started == Good && generation == f.generation && f.publication == Starting && f.connection == Connected then
      Section(f.(publication := Active, activeScope := Some(scope)), Returned(Good), true)
    else if started == Good && generation == f.generation && f.publication != Idle then
      Section(f, PressStop(generation, started), false)
    else
      Section(f, PressQuery(generation, started), false)
  }

  function PressFinishSection(f: Fields, generation: nat, started: Outcome, stopped: Outcome): Section {
    var result := if started != Good then started else if stopped != Good then stopped else InvalidState;
    if generation == f.generation then
      Section(f.(publication := Idle, activeScope := None, lastStop := stopped), Returned(result), true)
    else
      Section(f, Returned(result), false)
  }

  /** Disconnect goes on after its own release unless that release broke. */
  function AfterRelease(closing: bool, result: Outcome): Pc {
    if closing && result != Broken then CloseTransport else Returned(result)
  }

  function ReleaseEnterSection(f: Fields, closing: bool): Section {
    match f.publication
    case Idle => Section(f, AfterRelease(closing, InvalidState), false)
    case Starting => Section(f.(publication := Stopping), ReleaseWait(f.generation, closing, true), false)
    case Stopping => Section(f, ReleaseWait(f.generation, closing, true), false)
    case Active => Section(f.(publication := Stopping), ReleaseStop(f.generation, closing), false)
  }

  /** The predicate a waiting releaser tests whenever it is woken. */
  predicate WaitOver(f: Fields, generation: nat) {
    f.generation != generation || f.publication == Idle
  }

  function ReleaseWakeSection(f: Fields, generation: nat, closing: bool): Section {
    if WaitOver(f, generation) then Section(f, AfterRelease(closing, f.lastStop), false)
    else Section(f, ReleaseWait(generation, closing, true), false)
  }

  function ReleaseFinishSection(f: Fields, generation: nat, closing: bool, stopped: Outcome): Section {
    if generation == f.generation then
      Section(f.(publication := Idle, activeScope := None, lastStop := stopped), AfterRelease(closing, stopped), true)
    else
      Section(f, AfterRelease(closing, stopped), false)
  }

  function ConnectEnterSection(f: Fields): Section {
    if f.connection != Disconnected then Section(f, Returned(InvalidState), false)
    else Section(f.(connection := Connecting), ConnectTransport, false)
  }

  function ConnectFailSection(f: Fields, error: Outcome): Section {
    Section(f.(connection := Disconnected), Returned(error), false)
  }

  function CloseEnterSection(f: Fields): Section {
    if f.connection == Disconnected then Section(f.(activeScope := None), Returned(Good), false)
    else Section(f, ReleaseEnter(true), false)
  }

  function CloseFinishSection(f: Fields): Section {
    Section(f.(connection := Disconnected, activeScope := None), Returned(Good), false)
  }

  /** The callback by which the transport reports its state; it runs on a transport thread. */
  function StateChangedSection(f: Fields, connection: Connection): Section {
    var g := f.(connection := connection);
    if connection == Connected then Section(g, Outside, false)
    else
      var h := g.(activeScope := None);
      if f.publication == Active then Section(h.(publication := Idle, lastStop := Good), Outside, true)
      else if f.publication == Starting then Section(h.(publication := Stopping), Outside, false)
      else Section(h, Outside, false)
  }

  // ---------------------------------------------------------------- whole system

  /**
   * The client, its transport's microphone, and all threads.  `stopBroke` records whether a
   * request to silence the microphone ever failed.
   */
  datatype State = State(fields: Fields, microphone: bool, stopBroke: bool, threads: map<Tid, Pc>)

  /** The transport's free choices in one step: its result and the microphone after a failure. */
  datatype Choice = Choice(outcome: Outcome, microphone: bool)

  function Wake(pc: Pc): Pc {
    if pc.ReleaseWait? then pc.(asleep := false) else pc
  }

  function WakeAll(threads: map<Tid, Pc>): (woken: map<Tid, Pc>)
    ensures woken.Keys == threads.Keys
  {
    map t | t in threads :: Wake(threads[t])
  }

  function Enter(s: State, t: Tid, section: Section): State
    requires t in s.threads
  {
    var threads := if section.notify then WakeAll(s.threads) else s.threads;
    s.(fields := section.fields, threads := threads[t := section.next])
  }

  /** A stop is refused as invalid only when there is nothing to stop. */
  function StopOutcome(microphone: bool, choice: Choice): Outcome {
    if choice.outcome == InvalidState && microphone then Broken else choice.outcome
  }

  /**
   * What a thread standing at `pc` does in its next step: a critical section, or a call into the
   * transport made outside the lock, which leaves the fields alone.
   */
  function PcSection(f: Fields, microphone: bool, pc: Pc, choice: Choice): Section {
    match pc
    case PressEnter(scope) => PressEnterSection(f, scope)
    case PressStart(generation, scope) => Section(f, PressCheck(generation, scope, choice.outcome), false)
    case PressCheck(generation, scope, started) => PressCheckSection(f, generation, scope, started)
    case PressQuery(generation, started) =>
      Section(f, if microphone then PressStop(generation, started) else PressFinish(generation, started, Good), false)
    case PressStop(generation, started) =>
      var stopped := StopOutcome(microphone, choice);
      Section(f, PressFinish(generation, started, if stopped == InvalidState then Good else stopped), false)
    case PressFinish(generation, started, stopped) => PressFinishSection(f, generation, started, stopped)
    case ReleaseEnter(closing) => ReleaseEnterSection(f, closing)
    case ReleaseWait(generation, closing, asleep) =>
      if asleep then Section(f, pc, false) else ReleaseWakeSection(f, generation, closing)
    case ReleaseStop(generation, closing) =>
      Section(f, ReleaseFinish(generation, closing, StopOutcome(microphone, choice)), false)
    case ReleaseFinish(generation, closing, stopped) => ReleaseFinishSection(f, generation, closing, stopped)
    case ConnectEnter => ConnectEnterSection(f)
    case ConnectTransport =>
      Section(f, if choice.outcome == Good then Returned(Good) else ConnectFail(choice.outcome), false)
    case ConnectFail(error) => ConnectFailSection(f, error)
    case CloseEnter => CloseEnterSection(f)
    case CloseTransport => Section(f, if choice.outcome == Good then CloseFinish else Returned(choice.outcome), false)
    case CloseFinish => CloseFinishSection(f)
    case _ => Section(f, pc, false)
  }

  /** The microphone after that step. */
  function PcMicrophone(microphone: bool, pc: Pc, choice: Choice): bool {
    match pc
    case PressStart(_, _) => choice.outcome == Good || choice.microphone
    case PressStop(_, _) => microphone && StopOutcome(microphone, choice) != Good
    case ReleaseStop(_, _) => microphone && StopOutcome(microphone, choice) != Good
    case CloseTransport => microphone && choice.outcome != Good && choice.microphone
    case _ => microphone
  }

  /** Whether that step is a request to silence the microphone that breaks. */
  predicate PcBreaks(microphone: bool, pc: Pc, choice: Choice) {
    (pc.PressStop? || pc.ReleaseStop?) && StopOutcome(microphone, choice) == Broken
  }

  /** The next step of thread `t`; a sleeping or idle thread does nothing by itself. */
  function Step(s: State, t: Tid, choice: Choice): State
    requires t in s.threads
  {
    var pc := s.threads[t];
    Enter(s.(microphone := PcMicrophone(s.microphone, pc, choice),
             stopBroke := s.stopBroke || PcBreaks(s.microphone, pc, choice)),
          t, PcSection(s.fields, s.microphone, pc, choice))
  }

  /** A thread that is outside starts one of the client's operations. */
  predicate IsEntry(pc: Pc) {
    pc.PressEnter? || pc == ReleaseEnter(false) || pc == ConnectEnter || pc == CloseEnter
  }

  function Call(s: State, t: Tid, entry: Pc): State
    requires t in s.threads && !InCall(s.threads[t]) && IsEntry(entry)
  {
    s.(threads := s.threads[t := entry])
  }

  predicate InCall(pc: Pc) { pc != Outside && !pc.Returned? }

  /**
   * The transport reports a connection state.  It silences its microphone before it reports a
   * state other than connected; that silencing, too, may break.
   */
  function Report(s: State, connection: Connection, silenced: bool): State {
    var section := StateChangedSection(s.fields, connection);
    State(section.fields,
          s.microphone && (connection == Connected || !silenced),
          s.stopBroke || (connection != Connected && s.microphone && !silenced),
          if section.notify then WakeAll(s.threads) else s.threads)
  }

  /** A spurious wake-up of a waiting thread. */
  function Disturb(s: State, t: Tid): State
    requires t in s.threads
  {
    s.(threads := s.threads[t := Wake(s.threads[t])])
  }

  datatype Event =
    | Called(t: Tid, entry: Pc)
    | Stepped(t: Tid, choice: Choice)
    | Reported(connection: Connection, silenced: bool)
    | Disturbed(t: Tid)

  predicate Enabled(s: State, e: Event) {
    match e
    case Called(t, entry) => t in s.threads && !InCall(s.threads[t]) && IsEntry(entry)
    case Stepped(t, _) => t in s.threads
    case Reported(_, _) => true
    case Disturbed(t) => t in s.threads
  }

  function Next(s: State, e: Event): State
    requires Enabled(s, e)
  {
    match e
    case Called(t, entry) => Call(s, t, entry)
    case Stepped(t, choice) => Step(s, t, choice)
    case Reported(connection, silenced) => Report(s, connection, silenced)
    case Disturbed(t) => Disturb(s, t)
  }

  ghost predicate Init(s: State) {
    && s.fields.publication == Idle && s.fields.activeScope == None
    && !s.microphone && !s.stopBroke
    && forall t <- s.threads :: s.threads[t] == Outside
  }

  // ---------------------------------------------------------------- ownership of a generation

  /** A thread that will itself move the publication on: the presser, or a releaser that stops. */
  predicate IsOwner(pc: Pc) {
    IsPresser(pc) || pc.ReleaseStop? || pc.ReleaseFinish?
  }

  predicate IsPresser(pc: Pc) {
    pc.PressStart? || pc.PressCheck? || pc.PressQuery? || pc.PressStop? || pc.PressFinish?
  }

  predicate InTransition(f: Fields) { f.publication == Starting || f.publication == Stopping }

  /** An owner holds the current generation, and only a presser's generation can still be starting. */
  predicate OwnerFits(f: Fields, pc: Pc) {
    IsOwner(pc) ==>
      && pc.generation == f.generation
      && InTransition(f)
      && (f.publication == Starting ==> IsPresser(pc))
  }

  /** A waiter waits for a generation that is stopping or over, and sleeps only while it is not over. */
  predicate WaiterFits(f: Fields, pc: Pc) {
    pc.ReleaseWait? ==>
      && pc.generation <= f.generation
      && (pc.generation == f.generation ==> f.publication == Stopping || f.publication == Idle)
      && (pc.asleep ==> !WaitOver(f, pc.generation))
  }

  ghost predicate HasOwner(s: State) {
    exists t :: t in s.threads && IsOwner(s.threads[t])
  }

  predicate Fits(f: Fields, pc: Pc) { OwnerFits(f, pc) && WaiterFits(f, pc) }

  ghost predicate AllFit(s: State) { forall t <- s.threads :: Fits(s.fields, s.threads[t]) }

  ghost predicate OneOwner(s: State) {
    forall t, u :: t in s.threads && u in s.threads && IsOwner(s.threads[t]) && IsOwner(s.threads[u]) ==> t == u
  }

  predicate ScopeLaw(f: Fields) { f.activeScope.Some? ==> f.publication == Active || f.publication == Stopping }

  ghost predicate Ownership(s: State) {
    AllFit(s) && OneOwner(s) && (InTransition(s.fields) ==> HasOwner(s)) && ScopeLaw(s.fields)
  }

  /** While stops succeed the microphone is open only inside a publication, and off at its edges. */
  predicate Silent(pc: Pc) { pc.PressStart? || pc.PressFinish? || pc.ReleaseFinish? }

  ghost predicate MicrophoneLaw(s: State) {
    !s.stopBroke && s.microphone ==>
      && s.fields.publication != Idle
      && forall t <- s.threads :: !Silent(s.threads[t])
  }

  ghost predicate Inv(s: State) { Ownership(s) && MicrophoneLaw(s) }

  lemma InitInv(s: State)
    requires Init(s)
    ensures Inv(s)
  {}

  /**
   * A critical section of thread `t` keeps ownership when it leaves `t` in a fitting position,
   * takes over only an unowned transition, gives one up only by ending it, and disturbs nobody else.
   */
  lemma SectionOwnership(s: State, t: Tid, section: Section)
    requires Ownership(s) && t in s.threads
    requires Fits(section.fields, section.next) && ScopeLaw(section.fields)
    requires IsOwner(section.next) ==> IsOwner(s.threads[t]) || !InTransition(s.fields)
    requires InTransition(section.fields) ==> IsOwner(section.next) || (!IsOwner(s.threads[t]) && InTransition(s.fields))
    requires forall u <- s.threads :: u != t ==> Fits(section.fields, if section.notify then Wake(s.threads[u]) else s.threads[u])
    ensures Ownership(Enter(s, t, section))
  {
    var s' := Enter(s, t, section);
    EnterOwners(s, t, section);
    if InTransition(section.fields) {
      if IsOwner(section.next) {
        assert IsOwner(s'.threads[t]);
      } else {
        var u :| u in s.threads && IsOwner(s.threads[u]);
        assert IsOwner(s'.threads[u]);
      }
    }
    if !InTransition(s.fields) {
      assert forall u <- s.threads :: Fits(s.fields, s.threads[u]);
    }
  }

  /** Apart from the thread that enters, a critical section changes nobody's role. */
  lemma EnterOwners(s: State, t: Tid, section: Section)
    requires t in s.threads
    ensures var s' := Enter(s, t, section);
      && s'.threads.Keys == s.threads.Keys && s'.threads[t] == section.next
      && forall u <- s.threads :: u != t ==>
        && s'.threads[u] == (if section.notify then Wake(s.threads[u]) else s.threads[u])
        && IsOwner(s'.threads[u]) == IsOwner(s.threads[u])
  {}

  /** A thread's step leaves every other thread where it is, except that waiters may be woken. */
  lemma OthersOnlyWake(s: State, t: Tid, choice: Choice)
    requires t in s.threads
    ensures var s' := Step(s, t, choice);
      && s'.threads.Keys == s.threads.Keys
      && forall u <- s.threads :: u != t ==> s'.threads[u] == s.threads[u] || s'.threads[u] == Wake(s.threads[u])
  {
    EnterOwners(s, t, PcSection(s.fields, s.microphone, s.threads[t], choice));
  }

  /** A step outside the lock that leaves `t` owner exactly if it was one keeps ownership. */
  lemma OutsideOwnership(s: State, s': State, t: Tid, next: Pc)
    requires Ownership(s) && t in s.threads
    requires s'.fields == s.fields && s'.threads == s.threads[t := next]
    requires IsOwner(next) == IsOwner(s.threads[t]) && OwnerFits(s.fields, next) && WaiterFits(s.fields, next)
    ensures Ownership(s')
  {
    if HasOwner(s) {
      var u :| u in s.threads && IsOwner(s.threads[u]);
      assert IsOwner(s'.threads[u]);
    }
  }

  /** What a section must establish for the thread that runs it, and what it may do to the fields. */
  predicate Moves(f: Fields, pc: Pc, section: Section) {
    && Fits(section.fields, section.next) && ScopeLaw(section.fields)
    && (IsOwner(section.next) ==> IsOwner(pc) || !InTransition(f))
    && (InTransition(section.fields) ==> IsOwner(section.next) || (!IsOwner(pc) && InTransition(f)))
  }

  lemma PcMoves(f: Fields, microphone: bool, pc: Pc, choice: Choice)
    requires Fits(f, pc) && ScopeLaw(f)
    ensures Moves(f, pc, PcSection(f, microphone, pc, choice))
  {}

  lemma OthersFit(f: Fields, microphone: bool, pc: Pc, choice: Choice, other: Pc)
    requires Fits(f, pc) && Fits(f, other) && !(IsOwner(pc) && IsOwner(other))
    ensures var section := PcSection(f, microphone, pc, choice);
      Fits(section.fields, if section.notify then Wake(other) else other)
  {}

  lemma StepOwnership(s: State, t: Tid, choice: Choice)
    requires Ownership(s) && t in s.threads
    ensures Ownership(Step(s, t, choice))
  {
    var f, pc := s.fields, s.threads[t];
    var section := PcSection(f, s.microphone, pc, choice);
    PcMoves(f, s.microphone, pc, choice);
    forall u <- s.threads | u != t
      ensures Fits(section.fields, if section.notify then Wake(s.threads[u]) else s.threads[u])
    {
      OthersFit(f, s.microphone, pc, choice, s.threads[u]);
    }
    SectionOwnership(s.(microphone := PcMicrophone(s.microphone, pc, choice),
                        stopBroke := s.stopBroke || PcBreaks(s.microphone, pc, choice)), t, section);
  }

  /** Threads that own nothing are never at a silent edge; so the owner alone decides. */
  lemma StepMicrophone(s: State, t: Tid, choice: Choice)
    requires Inv(s) && t in s.threads
    ensures MicrophoneLaw(Step(s, t, choice))
  {
    var s' := Step(s, t, choice);
    if !s'.stopBroke && s'.microphone {
      forall u <- s.threads ensures !Silent(s'.threads[u]) {
        assert Silent(s.threads[u]) ==> IsOwner(s.threads[u]);
      }
    }
  }

  lemma ReportInv(s: State, connection: Connection, silenced: bool)
    requires Inv(s)
    ensures Inv(Report(s, connection, silenced))
  {
    var s' := Report(s, connection, silenced);
    if HasOwner(s) {
      var u :| u in s.threads && IsOwner(s.threads[u]);
      assert IsOwner(s'.threads[u]);
    }
  }

  /** Every step of every thread, every call, every report and every spurious wake-up keeps the invariant. */
  lemma NextInv(s: State, e: Event)
    requires Inv(s) && Enabled(s, e)
    ensures Inv(Next(s, e))
  {
    match e
    case Called(t, entry) => OutsideOwnership(s, Next(s, e), t, entry);
    case Stepped(t, choice) => StepOwnership(s, t, choice); StepMicrophone(s, t, choice);
    case Reported(connection, silenced) => ReportInv(s, connection, silenced);
    case Disturbed(t) => OutsideOwnership(s, Next(s, e), t, Wake(s.threads[t]));
  }

  // ---------------------------------------------------------------- no lost wake-up

  predicate CanRun(s: State, events: seq<Event>)
    decreases |events|
  {
    events == [] || (Enabled(s, events[0]) && CanRun(Next(s, events[0]), events[1..]))
  }

  function Run(s: State, events: seq<Event>): State
    requires CanRun(s, events)
    decreases |events|
  {
    if events == [] then s else Run(Next(s, events[0]), events[1..])
  }

  lemma {:induction false} RunInv(s: State, events: seq<Event>)
    requires Inv(s) && CanRun(s, events)
    ensures Inv(Run(s, events))
    decreases |events|
  {
    if events != [] {
      NextInv(s, events[0]);
      RunInv(Next(s, events[0]), events[1..]);
    }
  }

  /** How many of its own steps an owner still has before it leaves the transition. */
  function Remaining(pc: Pc): nat {
    match pc
    case PressStart(_, _) => 5
    case PressCheck(_, _, _) => 4
    case PressQuery(_, _) => 3
    case PressStop(_, _) => 2
    case PressFinish(_, _, _) => 1
    case ReleaseStop(_, _) => 2
    case ReleaseFinish(_, _, _) => 1
    case _ => 0
  }

  /** Its own step brings the owner nearer to the end, or ends the transition: in idle if it was stopping. */
  lemma OwnerAdvances(s: State, t: Tid, choice: Choice)
    requires Inv(s) && t in s.threads && IsOwner(s.threads[t])
    ensures var s' := Step(s, t, choice);
      && s'.fields.generation == s.fields.generation
      && (s.fields.publication == Stopping ==> s'.fields.publication in {Stopping, Idle})
      && (InTransition(s'.fields) <==> IsOwner(s'.threads[t]))
      && (IsOwner(s'.threads[t]) ==> Remaining(s'.threads[t]) < Remaining(s.threads[t]))
  {
    assert Fits(s.fields, s.threads[t]);
  }

  /** Whatever else happens leaves the owner where it is and its generation in transition. */
  lemma OthersKeepOwner(s: State, e: Event, t: Tid)
    requires Inv(s) && Enabled(s, e) && t in s.threads && IsOwner(s.threads[t])
    requires !(e.Stepped? && e.t == t)
    ensures var s' := Next(s, e);
      && s'.threads[t] == s.threads[t]
      && s'.fields.generation == s.fields.generation && InTransition(s'.fields)
      && (s.fields.publication == Stopping ==> s'.fields.publication == Stopping)
  {
    assert Fits(s.fields, s.threads[t]);
    if e.Stepped? {
      assert !IsOwner(s.threads[e.t]);
      assert Fits(s.fields, s.threads[e.t]);
    }
  }

  /** A finished wait stays finished, and the generation never goes back. */
  lemma WaitOverStays(s: State, e: Event, generation: nat)
    requires Inv(s) && Enabled(s, e) && generation <= s.fields.generation && WaitOver(s.fields, generation)
    ensures generation <= Next(s, e).fields.generation && WaitOver(Next(s, e).fields, generation)
  {
    if e.Stepped? { assert Fits(s.fields, s.threads[e.t]); }
  }

  lemma {:induction false} WaitOverStaysRun(s: State, events: seq<Event>, generation: nat)
    requires Inv(s) && CanRun(s, events) && generation <= s.fields.generation && WaitOver(s.fields, generation)
    ensures WaitOver(Run(s, events).fields, generation)
    decreases |events|
  {
    if events != [] {
      WaitOverStays(s, events[0], generation);
      NextInv(s, events[0]);
      WaitOverStaysRun(Next(s, events[0]), events[1..], generation);
    }
  }

  function Turns(events: seq<Event>, t: Tid): nat {
    if events == [] then 0
    else (if events[0].Stepped? && events[0].t == t then 1 else 0) + Turns(events[1..], t)
  }

  /**
   * A generation that is stopping has an owner, and as soon as that owner has had the turns it needs,
   * whatever happened in between, the wait for the generation is over and nobody sleeps on it.
   */
  lemma {:induction false} WaitersAreReleased(s: State, events: seq<Event>, owner: Tid)
    requires Inv(s) && CanRun(s, events) && s.fields.publication == Stopping
    requires owner in s.threads && IsOwner(s.threads[owner])
    requires Turns(events, owner) >= Remaining(s.threads[owner])
    ensures var s' := Run(s, events);
      && WaitOver(s'.fields, s.fields.generation)
      && forall t <- s'.threads :: s'.threads[t].ReleaseWait? && s'.threads[t].generation == s.fields.generation ==>
           !s'.threads[t].asleep
    decreases |events|
  {
    var e := events[0];
    var next := Next(s, e);
    NextInv(s, e);
    RunInv(s, events);
    if e.Stepped? && e.t == owner {
      OwnerAdvances(s, owner, e.choice);
    } else {
      OthersKeepOwner(s, e, owner);
    }
    if next.fields.publication == Idle {
      WaitOverStaysRun(next, events[1..], s.fields.generation);
    } else {
      WaitersAreReleased(next, events[1..], owner);
    }
    var s' := Run(s, events);
    assert forall t <- s'.threads :: Fits(s'.fields, s'.threads[t]);
  }

  /** Every sleeper has an owner to wait for: it waits for the generation in transition, which has exactly one. */
  lemma SleeperHasOwner(s: State, t: Tid)
    requires Inv(s) && t in s.threads && s.threads[t].ReleaseWait? && s.threads[t].asleep
    ensures s.threads[t].generation == s.fields.generation && s.fields.publication == Stopping
    ensures exists u <- s.threads :: IsOwner(s.threads[u]) && s.threads[u].generation == s.threads[t].generation
    ensures forall u, v :: u in s.threads && v in s.threads && IsOwner(s.threads[u]) && IsOwner(s.threads[v]) ==> u == v
  {
    assert Fits(s.fields, s.threads[t]);
    var u :| u in s.threads && IsOwner(s.threads[u]);
    assert Fits(s.fields, s.threads[u]);
  }

  ghost function OwnerOf(s: State): (t: Tid)
    requires HasOwner(s)
    ensures t in s.threads && IsOwner(s.threads[t])
  {
    var t :| t in s.threads && IsOwner(s.threads[t]);
    t
  }

  ghost function OwnerRemaining(s: State): nat {
    if HasOwner(s) then Remaining(s.threads[OwnerOf(s)]) else 0
  }

  /** What is left for the owner shrinks when it takes its turn and stays when it does not. */
  lemma OwnerRemainingShrinks(s: State, e: Event)
    requires Inv(s) && Enabled(s, e) && HasOwner(s) && InTransition(Next(s, e).fields)
    ensures Next(s, e).fields.generation == s.fields.generation && HasOwner(Next(s, e))
    ensures if e.Stepped? && e.t == OwnerOf(s)
      then OwnerRemaining(Next(s, e)) < OwnerRemaining(s) else OwnerRemaining(Next(s, e)) == OwnerRemaining(s)
  {
    var o, s' := OwnerOf(s), Next(s, e);
    NextInv(s, e);
    if e.Stepped? && e.t == o { OwnerAdvances(s, o, e.choice); } else { OthersKeepOwner(s, e, o); }
    assert IsOwner(s'.threads[o]);
    assert OwnerOf(s') == o;
  }
}
