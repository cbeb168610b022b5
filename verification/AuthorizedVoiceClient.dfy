/**
 * The authorised push-to-talk protocol: ask the server first, then open the microphone.
 *
 * The coordinator runs on top of the voice client, which it calls while its own lock is free, and it
 * talks to a server whose answers are arbitrary.  Presses, releases, transport reports and the
 * lifecycle operations interleave step by step; the lifecycle operations (connect, disconnect,
 * refresh) are serialised with each other on one thread.
 */
module AuthorizedVoiceClient {
  import opened Basics
  import Voice = VoiceClient

  type Tid = nat
  type Transmission = nat
  type Version = nat

  const LIFECYCLE: Tid := 0

  /** The fields guarded by the coordinator's mutex. */
  datatype Fields = Fields(
    enabled: bool,
    membership: Option<Version>,
    publication: Voice.Publication,
    generation: nat,
    active: Option<Transmission>,
    voiceStart: bool,
    lastRelease: bool)

  /** What a thread goes on with after a release: nothing, a disconnect, or a refresh to a version. */
  datatype After = Alone | Disconnecting | Refreshing(version: Version)

  datatype Pc =
    | Outside
    | Done(ok: bool)
    | PressEnter(scope: VoiceScope)
    | PressServer(generation: nat, scope: VoiceScope, version: Version)
    | PressStored(generation: nat, scope: VoiceScope, granted: Option<Transmission>)
    | PressCancelEnd(generation: nat, transmission: Transmission)
    | PressCancelFinish(generation: nat, transmission: Transmission, ended: bool)
    | PressVoice(generation: nat, scope: VoiceScope, transmission: Transmission)
    | PressVoiceDone(generation: nat, transmission: Transmission, succeeded: bool)
    | PressRollbackEnd(generation: nat, transmission: Transmission)
    | PressRollbackFinish(generation: nat, transmission: Transmission, ended: bool)
    | PressConfirm(generation: nat, transmission: Transmission)
    | PressUndoVoice(generation: nat, transmission: Transmission)
    | PressUndoEnd(generation: nat, transmission: Transmission)
    | PressUndoFinish(generation: nat, transmission: Transmission, ended: bool)
    | ReleaseEnter(after: After)
    | ReleaseCancel(generation: nat, after: After)
    | ReleaseWait(generation: nat, after: After, asleep: bool, stopped: bool)
    | ReleaseVoice(generation: nat, transmission: Transmission, after: After)
    | ReleaseEnd(generation: nat, transmission: Transmission, stopped: bool, after: After)
    | ReleaseFinish(generation: nat, ended: bool, stopped: bool, after: After)
    | Clean(after: After)
    | DisconnectEnter
    | RefreshEnter
    | RefreshFetch(known: Version)
    | RefreshSuspend(version: Version)
    | Close(after: After)
    | Forget
    | ConnectEnter
    | ConnectFetch
    | Open(version: Version)
    | Enable(version: Version)
    | Reset

  datatype Section = Section(fields: Fields, next: Pc, notify: bool)

  // ---------------------------------------------------------------- critical sections

  function PressEnterSection(f: Fields, connected: bool, scope: VoiceScope): Section {
    if !f.enabled || f.membership.None? || !connected then Section(f, Done(false), false)
    else if f.publication != Voice.Idle || f.active.Some? then Section(f, Done(false), false)
    else
      Section(f.(generation := f.generation + 1, publication := Voice.Starting, lastRelease := true),
              PressServer(f.generation + 1, scope, f.membership.value), false)
  }

  function PressStoredSection(f: Fields, generation: nat, scope: VoiceScope, granted: Option<Transmission>): Section {
    match granted
    case None =>
      if generation == f.generation then Section(f.(publication := Voice.Idle), Done(false), true)
      else Section(f, Done(false), false)
    case Some(transmission) =>
      if generation != f.generation then Section(f, PressCancelEnd(generation, transmission), false)
      else
        var cancelled := f.publication == Voice.Stopping;
        Section(f.(active := granted, voiceStart := !cancelled),
                if cancelled then PressCancelEnd(generation, transmission)
                else PressVoice(generation, scope, transmission), false)
  }

  /** The shared last section of a press that takes its transmission back. */
  function WithdrawSection(f: Fields, generation: nat, ended: bool): Section {
    if generation == f.generation then
      Section(f.(active := if ended then None else f.active, lastRelease := ended, publication := Voice.Idle),
              Done(false), true)
    else
      Section(f, Done(false), false)
  }

  function PressVoiceDoneSection(f: Fields, generation: nat, transmission: Transmission, succeeded: bool): Section {
    Section(f.(voiceStart := false),
            if succeeded then PressConfirm(generation, transmission) else PressRollbackEnd(generation, transmission), false)
  }

  function PressConfirmSection(f: Fields, generation: nat, transmission: Transmission): Section {
    if generation == f.generation && f.publication == Voice.Starting then
      Section(f.(publication := Voice.Active), Done(true), true)
    else
      Section(f, PressUndoVoice(generation, transmission), false)
  }

  function AfterRelease(after: After, ok: bool): Pc {
    if after.Alone? || !ok then Done(ok) else Clean(after)
  }

  function ReleaseEnterSection(f: Fields, after: After): Section {
    match f.publication
    case Idle => Section(f, AfterRelease(after, false), false)
    case Stopping => Section(f, ReleaseWait(f.generation, after, true, true), false)
    case Starting =>
      Section(f.(publication := Voice.Stopping),
              if f.voiceStart then ReleaseCancel(f.generation, after)
              else ReleaseWait(f.generation, after, false, true), false)
    case Active =>
      Section(f.(publication := Voice.Stopping),
              if f.active.Some? then ReleaseVoice(f.generation, f.active.value, after)
              else ReleaseWait(f.generation, after, false, true), false)
  }

  predicate WaitOver(f: Fields, generation: nat) {
    f.generation != generation || f.publication == Voice.Idle
  }

  function ReleaseWakeSection(f: Fields, generation: nat, after: After, stopped: bool): Section {
    if WaitOver(f, generation) then Section(f, AfterRelease(after, stopped && f.lastRelease), false)
    else Section(f, ReleaseWait(generation, after, true, stopped), false)
  }

  function ReleaseFinishSection(f: Fields, generation: nat, ended: bool, stopped: bool, after: After): Section {
    var ok := ended && stopped;
    if generation == f.generation then
      Section(f.(active := if ended then None else f.active, publication := Voice.Idle, lastRelease := ok),
              AfterRelease(after, ok), true)
    else
      Section(f, AfterRelease(after, ok), false)
  }

  /** Ending an interrupted transmission: the server is asked while the lock is held. */
  function CleanSection(f: Fields, after: After, ended: bool): Section {
    var onward := if after.Alone? then Done(true) else Close(after);
    if f.active.None? then Section(f, onward, false)
    else if ended then Section(f.(active := None), onward, false)
    else Section(f, Done(false), false)
  }

  /** Disconnect and refresh first forbid further presses and stop a publication in progress. */
  function SuspendSection(f: Fields, after: After): Section {
    Section(f.(enabled := false), if f.publication != Voice.Idle then ReleaseEnter(after) else Clean(after), false)
  }

  function RefreshEnterSection(f: Fields, disconnected: bool): Section {
    if f.membership.None? || disconnected then Section(f, Done(false), false)
    else Section(f, RefreshFetch(f.membership.value), false)
  }

  function ConnectEnterSection(f: Fields, disconnected: bool): Section {
    Section(f, if f.membership.Some? || !disconnected then Done(false) else ConnectFetch, false)
  }

  function ForgetSection(f: Fields, ok: bool): Section { Section(f.(membership := None), Done(ok), false) }

  function EnableSection(f: Fields, version: Version): Section {
    Section(f.(membership := Some(version), enabled := true), Done(true), false)
  }

  // ---------------------------------------------------------------- whole system

  /** What server and transport get to see, in order; `open` is the microphone when an end is asked for. */
  datatype Observation =
    | Granted(transmission: Transmission, scope: VoiceScope)
    | Opened(transmission: Transmission, scope: VoiceScope)
    | EndAsked(transmission: Transmission, open: bool)
    | Ended(transmission: Transmission)

  datatype State = State(fields: Fields, voice: Voice.State, threads: map<Tid, Pc>, log: seq<Observation>)

  /** The free choices of a step: the transport's, the server's answers, a fetched membership version and whether the grants match it. */
  datatype Choice = Choice(voice: Voice.Choice, granted: Option<Transmission>, ended: bool,
                           version: Option<Version>, grantsMatch: bool)

  /** The voice client operation a position stands for, if any. */
  function VoiceEntry(pc: Pc): Voice.Pc {
    match pc
    case PressVoice(_, scope, _) => Voice.PressEnter(scope)
    case PressUndoVoice(_, _) => Voice.ReleaseEnter(false)
    case ReleaseCancel(_, _) => Voice.ReleaseEnter(false)
    case ReleaseVoice(_, _, _) => Voice.ReleaseEnter(false)
    case Close(_) => Voice.CloseEnter
    case Open(_) => Voice.ConnectEnter
    case _ => Voice.Outside
  }

  function Wake(pc: Pc): Pc { if pc.ReleaseWait? then pc.(asleep := false) else pc }

  function WakeAll(threads: map<Tid, Pc>): (woken: map<Tid, Pc>)
    ensures woken.Keys == threads.Keys
  {
    map t | t in threads :: Wake(threads[t])
  }

  predicate Wired(s: State) { s.threads.Keys == s.voice.threads.Keys }

  /** Moves thread `t` on, starting the voice client operation its new position stands for. */
  function Goto(s: State, t: Tid, next: Pc): State
    requires Wired(s) && t in s.threads
  {
    s.(threads := s.threads[t := next],
       voice := s.voice.(threads := s.voice.threads[t := VoiceEntry(next)]))
  }

  function Enter(s: State, t: Tid, section: Section): State
    requires Wired(s) && t in s.threads
  {
    var woken := if section.notify then WakeAll(s.threads) else s.threads;
    Goto(s.(fields := section.fields, threads := woken), t, section.next)
  }

  /** The request to end a transmission, and the server's answer to it. */
  function AskLog(transmission: Transmission, open: bool, ended: bool): seq<Observation> {
    [EndAsked(transmission, open)] + if ended then [Ended(transmission)] else []
  }

  /** A step of the voice client on behalf of `t`; a microphone start is observed with its transmission. */
  function VoiceStep(s: State, t: Tid, choice: Choice): State
    requires Wired(s) && t in s.threads
  {
    var pc, at := s.threads[t], s.voice.threads[t];
    s.(voice := Voice.Step(s.voice, t, choice.voice),
       log := if pc.PressVoice? && at.PressStart? then s.log + [Opened(pc.transmission, at.scope)] else s.log)
  }

  predicate InVoice(s: State, t: Tid)
    requires Wired(s) && t in s.threads
  {
    VoiceEntry(s.threads[t]) != Voice.Outside && !s.voice.threads[t].Returned?
  }

  /**
   * What a thread standing at `pc` does in its next step: a critical section, or a call made outside
   * the lock, which leaves the fields alone.  `good` is the result of a voice client call it made.
   */
  function PcSection(f: Fields, connection: Voice.Connection, pc: Pc, good: bool, choice: Choice): Section {
    match pc
    case PressEnter(scope) => PressEnterSection(f, connection == Voice.Connected, scope)
    case PressServer(generation, scope, version) => Section(f, PressStored(generation, scope, choice.granted), false)
    case PressStored(generation, scope, granted) => PressStoredSection(f, generation, scope, granted)
    case PressCancelEnd(generation, transmission) =>
      Section(f, PressCancelFinish(generation, transmission, choice.ended), false)
    case PressCancelFinish(generation, _, ended) => WithdrawSection(f, generation, ended)
    case PressVoice(generation, _, transmission) => Section(f, PressVoiceDone(generation, transmission, good), false)
    case PressVoiceDone(generation, transmission, succeeded) =>
      PressVoiceDoneSection(f, generation, transmission, succeeded)
    case PressRollbackEnd(generation, transmission) =>
      Section(f, PressRollbackFinish(generation, transmission, choice.ended), false)
    case PressRollbackFinish(generation, _, ended) => WithdrawSection(f, generation, ended)
    case PressConfirm(generation, transmission) => PressConfirmSection(f, generation, transmission)
    case PressUndoVoice(generation, transmission) => Section(f, PressUndoEnd(generation, transmission), false)
    case PressUndoEnd(generation, transmission) =>
      Section(f, PressUndoFinish(generation, transmission, choice.ended), false)
    case PressUndoFinish(generation, _, ended) => WithdrawSection(f, generation, ended)
    case ReleaseEnter(after) => ReleaseEnterSection(f, after)
    case ReleaseCancel(generation, after) => Section(f, ReleaseWait(generation, after, false, good), false)
    case ReleaseWait(generation, after, asleep, stopped) =>
      if asleep then Section(f, pc, false) else ReleaseWakeSection(f, generation, after, stopped)
    case ReleaseVoice(generation, transmission, after) =>
      Section(f, ReleaseEnd(generation, transmission, good, after), false)
    case ReleaseEnd(generation, transmission, stopped, after) =>
      Section(f, ReleaseFinish(generation, choice.ended, stopped, after), false)
    case ReleaseFinish(generation, ended, stopped, after) => ReleaseFinishSection(f, generation, ended, stopped, after)
    case Clean(after) => CleanSection(f, after, choice.ended)
    case DisconnectEnter => SuspendSection(f, Disconnecting)
    case RefreshEnter => RefreshEnterSection(f, connection == Voice.Disconnected)
    case RefreshFetch(known) =>
      Section(f, if choice.version.None? || choice.version.value < known then Done(false)
                 else if choice.version.value == known then Done(true)
                 else if choice.grantsMatch then RefreshSuspend(choice.version.value) else Done(false), false)
    case RefreshSuspend(version) => SuspendSection(f, Refreshing(version))
    case Close(after) =>
      Section(f, if !good then Done(false) else if after.Refreshing? then Open(after.version) else Forget, false)
    case Forget => ForgetSection(f, true)
    case ConnectEnter => ConnectEnterSection(f, connection == Voice.Disconnected)
    case ConnectFetch =>
      Section(f, if choice.version.Some? && choice.grantsMatch then Open(choice.version.value) else Done(false), false)
    case Open(version) => Section(f, if good then Enable(version) else Reset, false)
    case Enable(version) => EnableSection(f, version)
    case Reset => ForgetSection(f, false)
    case _ => Section(f, pc, false)
  }

  /** What the server gets to see of that step. */
  function PcLog(f: Fields, pc: Pc, open: bool, choice: Choice): seq<Observation> {
    match pc
    case PressServer(_, scope, _) => if choice.granted.Some? then [Granted(choice.granted.value, scope)] else []
    case PressCancelEnd(_, transmission) => AskLog(transmission, open, choice.ended)
    case PressRollbackEnd(_, transmission) => AskLog(transmission, open, choice.ended)
    case PressUndoEnd(_, transmission) => AskLog(transmission, open, choice.ended)
    case ReleaseEnd(_, transmission, _, _) => AskLog(transmission, open, choice.ended)
    case Clean(_) => if f.active.Some? then AskLog(f.active.value, open, choice.ended) else []
    case _ => []
  }

  /** The step of thread `t` inside the coordinator. */
  function OwnStep(s: State, t: Tid, choice: Choice): State
    requires Wired(s) && t in s.threads && !InVoice(s, t)
  {
    var pc, good := s.threads[t], s.voice.threads[t] == Voice.Returned(Voice.Good);
    Enter(s.(log := s.log + PcLog(s.fields, pc, s.voice.microphone, choice)), t,
          PcSection(s.fields, s.voice.fields.connection, pc, good, choice))
  }

  function Step(s: State, t: Tid, choice: Choice): State
    requires Wired(s) && t in s.threads
  {
    if InVoice(s, t) then VoiceStep(s, t, choice) else OwnStep(s, t, choice)
  }

  datatype Event =
    | Called(t: Tid, entry: Pc)
    | Stepped(t: Tid, choice: Choice)
    | Reported(connection: Voice.Connection, silenced: bool)
    | Disturbed(t: Tid)
    | VoiceDisturbed(t: Tid)

  predicate IsEntry(t: Tid, pc: Pc) {
    || pc.PressEnter? || pc == ReleaseEnter(Alone) || pc == Clean(Alone)
    || (t == LIFECYCLE && (pc == DisconnectEnter || pc == RefreshEnter || pc == ConnectEnter))
  }

  predicate Enabled(s: State, e: Event) {
    && Wired(s)
    && match e
       case Called(t, entry) => t in s.threads && (s.threads[t] == Outside || s.threads[t].Done?) && IsEntry(t, entry)
       case Stepped(t, choice) =>
         && t in s.threads
         && (s.threads[t].PressServer? && choice.granted.Some? ==> !WasGranted(s.log, choice.granted.value))
       case Reported(_, _) => true
       case Disturbed(t) => t in s.threads
       case VoiceDisturbed(t) => t in s.threads
  }

  function Next(s: State, e: Event): State
    requires Enabled(s, e)
  {
    match e
    case Called(t, entry) => Goto(s, t, entry)
    case Stepped(t, choice) => Step(s, t, choice)
    case Reported(connection, silenced) => s.(voice := Voice.Report(s.voice, connection, silenced))
    case Disturbed(t) => s.(threads := s.threads[t := Wake(s.threads[t])])
    case VoiceDisturbed(t) => s.(voice := Voice.Disturb(s.voice, t))
  }

  // ---------------------------------------------------------------- the log

  predicate WasGranted(log: seq<Observation>, transmission: Transmission) {
    || Granted(transmission, Team) in log
    || Granted(transmission, Specialization) in log
    || Granted(transmission, Group) in log
  }

  predicate WasEndAsked(log: seq<Observation>, transmission: Transmission) {
    EndAsked(transmission, true) in log || EndAsked(transmission, false) in log
  }

  /** Started by the server and not yet ended by it, as far as its answers tell. */
  predicate Outstanding(log: seq<Observation>, transmission: Transmission) {
    WasGranted(log, transmission) && Ended(transmission) !in log
  }

  /** Started, and nobody has yet asked the server to end it. */
  predicate Live(log: seq<Observation>, transmission: Transmission) {
    WasGranted(log, transmission) && !WasEndAsked(log, transmission) && Ended(transmission) !in log
  }

  // ---------------------------------------------------------------- what each position implies

  predicate InTransition(f: Fields) { f.publication == Voice.Starting || f.publication == Voice.Stopping }

  predicate IsPresser(pc: Pc) {
    || pc.PressServer? || pc.PressStored? || pc.PressCancelEnd? || pc.PressCancelFinish? || pc.PressVoice?
    || pc.PressVoiceDone? || pc.PressRollbackEnd? || pc.PressRollbackFinish? || pc.PressConfirm?
    || pc.PressUndoVoice? || pc.PressUndoEnd? || pc.PressUndoFinish?
  }

  predicate IsOwner(pc: Pc) { IsPresser(pc) || pc.ReleaseVoice? || pc.ReleaseEnd? || pc.ReleaseFinish? }

  /** The active transmission is the owner's, unless an early clean-up has taken it away. */
  predicate Held(f: Fields, transmission: Transmission) { f.active == Some(transmission) || f.active.None? }

  /** The transmission an owner holds agrees with the fields and has been granted. */
  predicate Holding(f: Fields, log: seq<Observation>, pc: Pc)
    requires IsOwner(pc)
  {
    && f.voiceStart == (pc.PressVoice? || pc.PressVoiceDone?)
    && match pc
       case PressServer(_, _, _) => f.active.None?
       case PressStored(_, scope, granted) =>
         f.active.None? && (granted.Some? ==> Live(log, granted.value) && Granted(granted.value, scope) in log)
       case PressVoice(_, scope, transmission) => Held(f, transmission) && Granted(transmission, scope) in log
       case PressCancelFinish(_, transmission, ended) => Held(f, transmission) && (ended ==> Ended(transmission) in log)
       case PressRollbackFinish(_, transmission, ended) => Held(f, transmission) && (ended ==> Ended(transmission) in log)
       case PressUndoFinish(_, transmission, ended) => Held(f, transmission) && (ended ==> Ended(transmission) in log)
       case ReleaseFinish(_, ended, _, _) => ended && f.active.Some? ==> Ended(f.active.value) in log
       case _ => Held(f, pc.transmission) && WasGranted(log, pc.transmission)
  }

  predicate OwnerFits(f: Fields, log: seq<Observation>, pc: Pc) {
    IsOwner(pc) ==>
      && pc.generation == f.generation
      && InTransition(f)
      && (f.publication == Voice.Starting ==> IsPresser(pc))
      && Holding(f, log, pc)
  }

  predicate WaiterFits(f: Fields, pc: Pc) {
    pc.ReleaseWait? || pc.ReleaseCancel? ==>
      && pc.generation <= f.generation
      && (pc.generation == f.generation ==> f.publication == Voice.Stopping || f.publication == Voice.Idle)
      && (pc.ReleaseWait? && pc.asleep ==> !WaitOver(f, pc.generation))
      && (pc.after != Alone ==> pc.generation == f.generation)
  }

  /** Lifecycle positions: which thread they belong to, and what suspending has established. */
  predicate LifeFits(f: Fields, t: Tid, pc: Pc) {
    && (IsLifecycle(pc) ==> t == LIFECYCLE)
    && (IsSuspended(pc) ==> !f.enabled)
    && (IsQuiet(pc) ==> f.publication == Voice.Idle)
    && (IsQuiet(pc) && !pc.Clean? ==> f.active.None?)
    && (pc.ConnectFetch? ==> f.membership.None?)
  }

  function AfterOf(pc: Pc): After {
    match pc
    case ReleaseEnter(after) => after
    case ReleaseCancel(_, after) => after
    case ReleaseWait(_, after, _, _) => after
    case ReleaseVoice(_, _, after) => after
    case ReleaseEnd(_, _, _, after) => after
    case ReleaseFinish(_, _, _, after) => after
    case Clean(after) => after
    case _ => Alone
  }

  predicate IsQuiet(pc: Pc) {
    || (pc.Clean? && pc.after != Alone) || pc.Close? || pc.Forget? || pc.Open? || pc.Enable? || pc.Reset?
  }

  predicate IsSuspended(pc: Pc) { IsQuiet(pc) || AfterOf(pc) != Alone }

  predicate IsLifecycle(pc: Pc) {
    || IsSuspended(pc) || pc.DisconnectEnter? || pc.RefreshEnter? || pc.RefreshFetch? || pc.RefreshSuspend?
    || pc.ConnectEnter? || pc.ConnectFetch?
  }

  /** Where a thread stands inside the voice client follows from where it stands here. */
  predicate VoiceFits(pc: Pc, at: Voice.Pc) {
    match VoiceEntry(pc)
    case PressEnter(scope) =>
      || at.Returned? || at == Voice.PressEnter(scope)
      || (Voice.IsPresser(at) && (at.PressStart? || at.PressCheck? ==> at.scope == scope))
    case ReleaseEnter(_) => at.Returned? || IsRelease(at, false)
    case CloseEnter => at.Returned? || at.CloseEnter? || at.CloseTransport? || at.CloseFinish? || IsRelease(at, true)
    case ConnectEnter => at.Returned? || at.ConnectEnter? || at.ConnectTransport? || at.ConnectFail?
    case _ => at == Voice.Outside
  }

  predicate IsRelease(at: Voice.Pc, closing: bool) {
    (at.ReleaseEnter? || at.ReleaseWait? || at.ReleaseStop? || at.ReleaseFinish?) && at.closing == closing
  }

  /** The voice client is idle whenever the owner is not between opening and closing the microphone. */
  predicate VoiceQuiet(v: Voice.Fields, pc: Pc, at: Voice.Pc) {
    IsOwner(pc) ==>
      match pc
      case PressVoice(_, _, _) =>
        at.PressEnter? || (at.Returned? && at.result != Voice.Good) ==> v.publication == Voice.Idle
      case PressVoiceDone(_, _, succeeded) => succeeded || v.publication == Voice.Idle
      case PressConfirm(_, _) => true
      case PressUndoVoice(_, _) =>
        && (at.ReleaseWait? ==> at.generation == v.generation)
        && (at.Returned? ==> v.publication == Voice.Idle)
      case ReleaseVoice(_, _, _) =>
        && (at.ReleaseWait? ==> at.generation == v.generation)
        && (at.Returned? ==> v.publication == Voice.Idle)
      case _ => v.publication == Voice.Idle
  }

  predicate Fits(f: Fields, log: seq<Observation>, v: Voice.Fields, t: Tid, pc: Pc, at: Voice.Pc) {
    && OwnerFits(f, log, pc) && WaiterFits(f, pc) && LifeFits(f, t, pc)
    && VoiceFits(pc, at) && VoiceQuiet(v, pc, at)
  }

  predicate FieldsFit(f: Fields, log: seq<Observation>, v: Voice.Fields) {
    && (f.publication == Voice.Idle ==> !f.voiceStart && v.publication == Voice.Idle)
    && (f.publication == Voice.Active ==> !f.voiceStart)
    && (f.membership.None? ==> !f.enabled && f.publication == Voice.Idle && f.active.None?)
    && (f.active.Some? ==> WasGranted(log, f.active.value))
  }

  // ---------------------------------------------------------------- the invariant

  ghost predicate AllFit(s: State)
    requires Wired(s)
  {
    forall t <- s.threads :: Fits(s.fields, s.log, s.voice.fields, t, s.threads[t], s.voice.threads[t])
  }

  ghost predicate HasOwner(s: State) { exists t :: t in s.threads && IsOwner(s.threads[t]) }

  ghost predicate OneOwner(s: State) {
    forall t, u :: t in s.threads && u in s.threads && IsOwner(s.threads[t]) && IsOwner(s.threads[u]) ==> t == u
  }

  predicate Carries(pc: Pc, transmission: Transmission) { pc.PressStored? && pc.granted == Some(transmission) }

  /** No started transmission is forgotten: it is the active one, or a presser is about to store it. */
  ghost predicate NothingForgotten(s: State) {
    forall transmission: Transmission :: Outstanding(s.log, transmission) ==>
      || s.fields.active == Some(transmission)
      || exists t :: t in s.threads && Carries(s.threads[t], transmission)
  }

  ghost predicate Protocol(s: State)
    requires Wired(s)
  {
    AllFit(s) && OneOwner(s) && Owned(s) && FieldsFit(s.fields, s.log, s.voice.fields)
  }

  /** A generation that can no longer come to its end, as its transmission was taken away before its release. */
  predicate IsStuck(f: Fields) { f.publication == Voice.Stopping && f.active.None? }

  ghost predicate Owned(s: State) { InTransition(s.fields) ==> HasOwner(s) || IsStuck(s.fields) }

  /** One observation after those before it. */
  ghost predicate LawfulAfter(before: seq<Observation>, o: Observation) {
    match o
    case Granted(transmission, _) => !WasGranted(before, transmission)
    case Opened(transmission, scope) => Granted(transmission, scope) in before
    case EndAsked(transmission, _) => WasGranted(before, transmission)
    case Ended(transmission) => WasEndAsked(before, transmission)
  }

  ghost predicate Lawful(log: seq<Observation>) {
    forall i :: 0 <= i < |log| ==> LawfulAfter(log[..i], log[i])
  }

  ghost predicate Inv(s: State) {
    Wired(s) && Voice.Inv(s.voice) && Protocol(s) && NothingForgotten(s) && Lawful(s.log)
  }

  ghost predicate Init(s: State) {
    && Wired(s) && Voice.Init(s.voice) && s.log == []
    && s.fields == Fields(false, None, Voice.Idle, 0, None, false, false)
    && forall t <- s.threads :: s.threads[t] == Outside
  }

  lemma InitInv(s: State)
    requires Init(s)
    ensures Inv(s)
  {}

  // ---------------------------------------------------------------- preservation

  /** Apart from the thread that enters, a critical section changes nobody's role or position below. */
  lemma EnterOthers(s: State, t: Tid, section: Section)
    requires Wired(s) && t in s.threads
    ensures var s' := Enter(s, t, section);
      && Wired(s') && s'.threads.Keys == s.threads.Keys && s'.fields == section.fields && s'.log == s.log
      && s'.threads[t] == section.next && s'.voice.threads[t] == VoiceEntry(section.next)
      && s'.voice == s.voice.(threads := s'.voice.threads)
      && forall u <- s.threads :: u != t ==>
        && s'.threads[u] == (if section.notify then Wake(s.threads[u]) else s.threads[u])
        && IsOwner(s'.threads[u]) == IsOwner(s.threads[u])
        && s'.voice.threads[u] == s.voice.threads[u]
  {}

  /** Somebody owns the transition after the section if the section itself does, or somebody else already did. */
  lemma EnterOwned(s: State, t: Tid, section: Section)
    requires Wired(s) && OneOwner(s) && t in s.threads
    requires IsOwner(section.next) ==> IsOwner(s.threads[t]) || !HasOwner(s)
    requires InTransition(section.fields) ==>
      IsOwner(section.next) || (!IsOwner(s.threads[t]) && HasOwner(s)) || IsStuck(section.fields)
    ensures var s' := Enter(s, t, section); Wired(s') && OneOwner(s') && Owned(s')
  {
    var s' := Enter(s, t, section);
    EnterOthers(s, t, section);
    if InTransition(section.fields) {
      if IsOwner(section.next) {
        assert IsOwner(s'.threads[t]);
      } else if !IsStuck(section.fields) {
        var u :| u in s.threads && IsOwner(s.threads[u]);
        assert IsOwner(s'.threads[u]);
      }
    }
  }

  lemma OwnerInTransition(s: State)
    requires Wired(s) && AllFit(s)
    ensures HasOwner(s) ==> InTransition(s.fields)
  {
    if HasOwner(s) {
      var u :| u in s.threads && IsOwner(s.threads[u]);
      assert Fits(s.fields, s.log, s.voice.fields, u, s.threads[u], s.voice.threads[u]);
    }
  }

  lemma SectionProtocol(s: State, log: seq<Observation>, t: Tid, section: Section)
    requires Wired(s) && Protocol(s) && t in s.threads
    requires Fits(section.fields, log, s.voice.fields, t, section.next, VoiceEntry(section.next))
    requires FieldsFit(section.fields, log, s.voice.fields)
    requires IsOwner(section.next) ==> IsOwner(s.threads[t]) || !InTransition(s.fields)
    requires InTransition(section.fields) ==>
      IsOwner(section.next) || IsStuck(section.fields) || (!IsOwner(s.threads[t]) && InTransition(s.fields))
    requires IsStuck(s.fields) && !IsOwner(s.threads[t]) ==> IsStuck(section.fields)
    requires forall u <- s.threads :: u != t ==>
      Fits(section.fields, log, s.voice.fields, u, if section.notify then Wake(s.threads[u]) else s.threads[u], s.voice.threads[u])
    ensures Wired(Enter(s.(log := log), t, section)) && Protocol(Enter(s.(log := log), t, section))
  {
    OwnerInTransition(s);
    EnterOthers(s.(log := log), t, section);
    EnterOwned(s.(log := log), t, section);
  }

  /** Leaving one voice client operation and perhaps starting the next keeps the voice client's invariant. */
  lemma EnterVoice(s: State, t: Tid, section: Section)
    requires Wired(s) && Voice.Inv(s.voice) && t in s.threads
    requires !Voice.InCall(s.voice.threads[t])
    ensures Voice.Inv(Enter(s, t, section).voice)
  {
    EnterOthers(s, t, section);
    Voice.OutsideOwnership(s.voice, Enter(s, t, section).voice, t, VoiceEntry(section.next));
  }

  lemma NotInCall(s: State, t: Tid)
    requires Wired(s) && AllFit(s) && t in s.threads && !InVoice(s, t)
    ensures !Voice.InCall(s.voice.threads[t])
  {
    assert Fits(s.fields, s.log, s.voice.fields, t, s.threads[t], s.voice.threads[t]);
  }

  /** A thread that owns nothing fits any fields that keep its generation, its stop and its suspension. */
  lemma GuestFits(s: State, f: Fields, log: seq<Observation>, v: Voice.Fields, u: Tid, wake: bool)
    requires Wired(s) && AllFit(s) && u in s.threads && !IsOwner(s.threads[u])
    requires f.generation == s.fields.generation
    requires InTransition(s.fields) || f.publication == s.fields.publication
      || (s.fields.publication == Voice.Active && f.publication == Voice.Stopping)
    requires s.fields.publication == Voice.Stopping ==> f.publication in {Voice.Stopping, Voice.Idle}
    requires wake || f.publication == s.fields.publication || f.publication == Voice.Stopping
    requires f.enabled ==> s.fields.enabled
    requires f.active.Some? ==> s.fields.active.Some? || InTransition(s.fields)
    requires f.membership == s.fields.membership
    ensures Fits(f, log, v, u, if wake then Wake(s.threads[u]) else s.threads[u], s.voice.threads[u])
  {
    assert Fits(s.fields, s.log, s.voice.fields, u, s.threads[u], s.voice.threads[u]);
  }

  /** What an owner's own section has to establish; nobody else is affected by it. */
  predicate OwnerMoves(f: Fields, log: seq<Observation>, v: Voice.Fields, t: Tid, section: Section) {
    && Fits(section.fields, log, v, t, section.next, VoiceEntry(section.next))
    && FieldsFit(section.fields, log, v)
    && (InTransition(section.fields) <==> IsOwner(section.next))
    && section.fields.generation == f.generation
    && section.fields.membership == f.membership && section.fields.enabled == f.enabled
    && (section.fields.publication == f.publication
        || (section.notify && (section.fields.publication == Voice.Idle || f.publication == Voice.Starting)))
  }

  lemma OwnerEnters(s: State, log: seq<Observation>, t: Tid, section: Section)
    requires Wired(s) && Protocol(s) && t in s.threads && IsOwner(s.threads[t])
    requires OwnerMoves(s.fields, log, s.voice.fields, t, section)
    ensures Wired(Enter(s.(log := log), t, section)) && Protocol(Enter(s.(log := log), t, section))
  {
    assert Fits(s.fields, s.log, s.voice.fields, t, s.threads[t], s.voice.threads[t]);
    forall u <- s.threads | u != t
      ensures Fits(section.fields, log, s.voice.fields, u, if section.notify then Wake(s.threads[u]) else s.threads[u], s.voice.threads[u])
    {
      GuestFits(s, section.fields, log, s.voice.fields, u, section.notify);
    }
    SectionProtocol(s, log, t, section);
  }

  lemma GrantIsLive(log: seq<Observation>, transmission: Transmission, scope: VoiceScope)
    requires !WasEndAsked(log, transmission) && Ended(transmission) !in log
    ensures var longer := log + [Granted(transmission, scope)];
      Live(longer, transmission) && Granted(transmission, scope) in longer
  {
    var longer := log + [Granted(transmission, scope)];
    assert longer[|log|] == Granted(transmission, scope);
    match scope { case Team => case Specialization => case Group => }
  }

  lemma GrantsRemain(log: seq<Observation>, more: seq<Observation>, transmission: Transmission)
    ensures WasGranted(log, transmission) ==> WasGranted(log + more, transmission)
  {}


  lemma StoredMoves(f: Fields, log: seq<Observation>, v: Voice.Fields, t: Tid, pc: Pc, at: Voice.Pc, choice: Choice)
    requires pc.PressStored? && Fits(f, log, v, t, pc, at) && FieldsFit(f, log, v)
    ensures OwnerMoves(f, log, v, t, PcSection(f, v.connection, pc, false, choice))
  {}

  lemma ConfirmMoves(f: Fields, log: seq<Observation>, v: Voice.Fields, t: Tid, pc: Pc, at: Voice.Pc, choice: Choice)
    requires pc.PressVoiceDone? || pc.PressConfirm?
    requires Fits(f, log, v, t, pc, at) && FieldsFit(f, log, v)
    ensures OwnerMoves(f, log, v, t, PcSection(f, v.connection, pc, false, choice))
  {}

  lemma WithdrawMoves(f: Fields, log: seq<Observation>, v: Voice.Fields, t: Tid, pc: Pc, at: Voice.Pc, choice: Choice)
    requires pc.PressCancelFinish? || pc.PressRollbackFinish? || pc.PressUndoFinish?
    requires Fits(f, log, v, t, pc, at) && FieldsFit(f, log, v)
    ensures OwnerMoves(f, log, v, t, PcSection(f, v.connection, pc, false, choice))
  {}

  lemma VoiceCallMoves(f: Fields, log: seq<Observation>, v: Voice.Fields, t: Tid, pc: Pc, at: Voice.Pc, choice: Choice)
    requires pc.PressVoice? || pc.PressUndoVoice? || pc.ReleaseVoice?
    requires Fits(f, log, v, t, pc, at) && FieldsFit(f, log, v) && at.Returned?
    ensures OwnerMoves(f, log, v, t, PcSection(f, v.connection, pc, at == Voice.Returned(Voice.Good), choice))
  {
    if pc.PressVoice? { GrantedAtScope(log, pc.transmission, pc.scope); }
  }

  lemma GrantedAtScope(log: seq<Observation>, transmission: Transmission, scope: VoiceScope)
    ensures Granted(transmission, scope) in log ==> WasGranted(log, transmission)
  {
    match scope { case Team => case Specialization => case Group => }
  }

  lemma GrantMoves(f: Fields, log: seq<Observation>, v: Voice.Fields, t: Tid, pc: Pc, at: Voice.Pc, choice: Choice)
    requires pc.PressServer? && Fits(f, log, v, t, pc, at) && FieldsFit(f, log, v)
    requires choice.granted.Some? ==>
      !WasEndAsked(log, choice.granted.value) && Ended(choice.granted.value) !in log
    ensures OwnerMoves(f, log + PcLog(f, pc, false, choice), v, t, PcSection(f, v.connection, pc, false, choice))
  {
    if choice.granted.Some? { GrantIsLive(log, choice.granted.value, pc.scope); }
  }

  lemma AskMoves(f: Fields, log: seq<Observation>, longer: seq<Observation>, v: Voice.Fields, t: Tid, pc: Pc, at: Voice.Pc, choice: Choice)
    requires pc.PressCancelEnd? || pc.PressRollbackEnd? || pc.PressUndoEnd? || pc.ReleaseEnd?
    requires Fits(f, log, v, t, pc, at) && FieldsFit(f, log, v)
    requires WasGranted(longer, pc.transmission) && (choice.ended ==> Ended(pc.transmission) in longer)
    ensures OwnerMoves(f, longer, v, t, PcSection(f, v.connection, pc, false, choice))
  {}

  lemma ReleaseFinishMoves(f: Fields, log: seq<Observation>, v: Voice.Fields, t: Tid, pc: Pc, at: Voice.Pc, choice: Choice)
    requires pc.ReleaseFinish? && Fits(f, log, v, t, pc, at) && FieldsFit(f, log, v)
    ensures OwnerMoves(f, log, v, t, PcSection(f, v.connection, pc, false, choice))
  {}

  /** The owner's step, whichever it is, establishes what an owner has to. */
  lemma PcMoves(f: Fields, log: seq<Observation>, v: Voice.Fields, t: Tid, pc: Pc, at: Voice.Pc, open: bool, choice: Choice)
    requires IsOwner(pc) && Fits(f, log, v, t, pc, at) && FieldsFit(f, log, v)
    requires VoiceEntry(pc) != Voice.Outside ==> at.Returned?
    requires pc.PressServer? && choice.granted.Some? ==>
      !WasEndAsked(log, choice.granted.value) && Ended(choice.granted.value) !in log
    ensures OwnerMoves(f, log + PcLog(f, pc, open, choice), v, t,
                       PcSection(f, v.connection, pc, at == Voice.Returned(Voice.Good), choice))
  {
    if pc.PressServer? {
      GrantMoves(f, log, v, t, pc, at, choice);
    } else if pc.PressCancelEnd? || pc.PressRollbackEnd? || pc.PressUndoEnd? || pc.ReleaseEnd? {
      var asked := AskLog(pc.transmission, open, choice.ended);
      GrantsRemain(log, asked, pc.transmission);
      if choice.ended { assert asked[1] == Ended(pc.transmission); }
      AskMoves(f, log, log + asked, v, t, pc, at, choice);
    } else {
      assert log + [] == log;
      if VoiceEntry(pc) != Voice.Outside {
        VoiceCallMoves(f, log, v, t, pc, at, choice);
      } else if pc.ReleaseFinish? {
        ReleaseFinishMoves(f, log, v, t, pc, at, choice);
      } else if pc.PressStored? {
        StoredMoves(f, log, v, t, pc, at, choice);
      } else if pc.PressVoiceDone? || pc.PressConfirm? {
        ConfirmMoves(f, log, v, t, pc, at, choice);
      } else {
        WithdrawMoves(f, log, v, t, pc, at, choice);
      }
    }
  }

  lemma OwnerProtocol(s: State, t: Tid, choice: Choice)
    requires Wired(s) && Protocol(s) && t in s.threads && !InVoice(s, t) && IsOwner(s.threads[t])
    requires s.threads[t].PressServer? && choice.granted.Some? ==>
      !WasEndAsked(s.log, choice.granted.value) && Ended(choice.granted.value) !in s.log
    ensures var s' := OwnStep(s, t, choice); Wired(s') && Protocol(s')
  {
    var pc, at := s.threads[t], s.voice.threads[t];
    assert Fits(s.fields, s.log, s.voice.fields, t, pc, at);
    PcMoves(s.fields, s.log, s.voice.fields, t, pc, at, s.voice.microphone, choice);
    OwnerEnters(s, s.log + PcLog(s.fields, pc, s.voice.microphone, choice), t,
                PcSection(s.fields, s.voice.fields.connection, pc, at == Voice.Returned(Voice.Good), choice));
  }

  /** The fields a guest's section may leave behind for everybody else. */
  predicate GuestChange(f: Fields, log: seq<Observation>, g: Fields, longer: seq<Observation>) {
    || (g == f && longer == log)
    || (longer == log && f.enabled && f.membership.Some? && f.publication == Voice.Idle && f.active.None?
        && g == f.(generation := f.generation + 1, publication := Voice.Starting, lastRelease := true))
    || (longer == log && (f.publication == Voice.Starting || f.publication == Voice.Active)
        && g == f.(publication := Voice.Stopping))
    || (f.active.Some? && log <= longer && (g == f || g == f.(active := None)))
    || (longer == log && g == f.(enabled := false))
    || (longer == log && !f.enabled && f.publication == Voice.Idle && f.active.None? && g == f.(membership := None))
  }

  lemma OthersFit(f: Fields, log: seq<Observation>, g: Fields, longer: seq<Observation>, v: Voice.Fields, u: Tid, pc: Pc, at: Voice.Pc)
    requires GuestChange(f, log, g, longer) && Fits(f, log, v, u, pc, at)
    ensures Fits(g, longer, v, u, pc, at)
  {
    if IsOwner(pc) { OwnersFit(f, log, g, longer, pc); }
  }

  lemma OwnersFit(f: Fields, log: seq<Observation>, g: Fields, longer: seq<Observation>, pc: Pc)
    requires GuestChange(f, log, g, longer) && IsOwner(pc) && OwnerFits(f, log, pc)
    ensures OwnerFits(g, longer, pc)
  {
    if log <= longer { LogRemains(log, longer); }
  }

  lemma LogRemains(log: seq<Observation>, longer: seq<Observation>)
    requires log <= longer
    ensures forall o :: o in log ==> o in longer
  {
    assert forall i :: 0 <= i < |log| ==> log[i] == longer[i];
  }

  /** Enabling is done by the lifecycle thread, so no other thread is suspended. */
  lemma OthersFitEnabled(f: Fields, log: seq<Observation>, version: Version, v: Voice.Fields, u: Tid, pc: Pc, at: Voice.Pc)
    requires u != LIFECYCLE && Fits(f, log, v, u, pc, at)
    ensures Fits(EnableSection(f, version).fields, log, v, u, pc, at)
  {}

  /** What a guest's own section has to establish. */
  predicate GuestMoves(f: Fields, log: seq<Observation>, longer: seq<Observation>, v: Voice.Fields, t: Tid, section: Section) {
    && !section.notify
    && Fits(section.fields, longer, v, t, section.next, VoiceEntry(section.next))
    && FieldsFit(section.fields, longer, v)
    && (IsOwner(section.next) ==> !InTransition(f))
    && (InTransition(section.fields) ==> IsOwner(section.next) || IsStuck(section.fields) || InTransition(f))
    && (IsStuck(f) ==> IsStuck(section.fields))
  }

  lemma WaitMoves(f: Fields, log: seq<Observation>, v: Voice.Fields, t: Tid, pc: Pc, at: Voice.Pc, choice: Choice)
    requires pc.ReleaseCancel? || pc.ReleaseWait?
    requires Fits(f, log, v, t, pc, at) && FieldsFit(f, log, v)
    ensures var section := PcSection(f, v.connection, pc, at == Voice.Returned(Voice.Good), choice);
      section.fields == f && GuestMoves(f, log, log, v, t, section)
  {}

  lemma PlainGuestMoves(f: Fields, log: seq<Observation>, v: Voice.Fields, t: Tid, pc: Pc, at: Voice.Pc, choice: Choice)
    requires pc.RefreshEnter? || pc.RefreshFetch? || pc.ConnectEnter? || pc.ConnectFetch?
    requires Fits(f, log, v, t, pc, at) && FieldsFit(f, log, v)
    ensures var section := PcSection(f, v.connection, pc, at == Voice.Returned(Voice.Good), choice);
      section.fields == f && GuestMoves(f, log, log, v, t, section)
  {}

  lemma LinkMoves(f: Fields, log: seq<Observation>, v: Voice.Fields, t: Tid, pc: Pc, at: Voice.Pc, choice: Choice)
    requires pc.Close? || pc.Open? || pc.Outside? || pc.Done?
    requires Fits(f, log, v, t, pc, at) && FieldsFit(f, log, v) && (VoiceEntry(pc) != Voice.Outside ==> at.Returned?)
    ensures var section := PcSection(f, v.connection, pc, at == Voice.Returned(Voice.Good), choice);
      section.fields == f && GuestMoves(f, log, log, v, t, section)
  {}

  lemma BeginMoves(f: Fields, log: seq<Observation>, v: Voice.Fields, t: Tid, pc: Pc, choice: Choice)
    requires pc.PressEnter? && FieldsFit(f, log, v)
    ensures var section := PcSection(f, v.connection, pc, false, choice);
      GuestChange(f, log, section.fields, log) && GuestMoves(f, log, log, v, t, section)
  {}

  lemma ReleaseEnterMoves(f: Fields, log: seq<Observation>, v: Voice.Fields, t: Tid, pc: Pc, at: Voice.Pc, choice: Choice)
    requires pc.ReleaseEnter? && Fits(f, log, v, t, pc, at) && FieldsFit(f, log, v)
    requires f.publication == Voice.Idle || f.publication == Voice.Stopping
    ensures var section := PcSection(f, v.connection, pc, false, choice);
      GuestChange(f, log, section.fields, log) && GuestMoves(f, log, log, v, t, section)
  {}

  lemma ReleaseBeginMoves(f: Fields, log: seq<Observation>, v: Voice.Fields, t: Tid, pc: Pc, at: Voice.Pc, choice: Choice)
    requires pc.ReleaseEnter? && Fits(f, log, v, t, pc, at) && FieldsFit(f, log, v)
    requires f.publication == Voice.Starting || f.publication == Voice.Active
    ensures var section := PcSection(f, v.connection, pc, false, choice);
      GuestChange(f, log, section.fields, log) && GuestMoves(f, log, log, v, t, section)
  {}

  lemma CleanMoves(f: Fields, log: seq<Observation>, longer: seq<Observation>, v: Voice.Fields, t: Tid, pc: Pc, at: Voice.Pc, choice: Choice)
    requires pc.Clean? && Fits(f, log, v, t, pc, at) && FieldsFit(f, log, v)
    requires if f.active.None? then longer == log else log <= longer && WasGranted(longer, f.active.value)
    ensures var section := PcSection(f, v.connection, pc, false, choice);
      GuestChange(f, log, section.fields, longer) && GuestMoves(f, log, longer, v, t, section)
  {}

  lemma SuspendMoves(f: Fields, log: seq<Observation>, v: Voice.Fields, t: Tid, pc: Pc, at: Voice.Pc, choice: Choice)
    requires pc.DisconnectEnter? || pc.RefreshSuspend?
    requires Fits(f, log, v, t, pc, at) && FieldsFit(f, log, v)
    ensures var section := PcSection(f, v.connection, pc, false, choice);
      GuestChange(f, log, section.fields, log) && GuestMoves(f, log, log, v, t, section)
  {}

  lemma ForgetMoves(f: Fields, log: seq<Observation>, v: Voice.Fields, t: Tid, pc: Pc, at: Voice.Pc, choice: Choice)
    requires pc.Forget? || pc.Reset?
    requires Fits(f, log, v, t, pc, at) && FieldsFit(f, log, v)
    ensures var section := PcSection(f, v.connection, pc, false, choice);
      GuestChange(f, log, section.fields, log) && GuestMoves(f, log, log, v, t, section)
  {}

  lemma EnableMoves(f: Fields, log: seq<Observation>, v: Voice.Fields, t: Tid, pc: Pc, at: Voice.Pc)
    requires pc.Enable? && Fits(f, log, v, t, pc, at) && FieldsFit(f, log, v)
    ensures GuestMoves(f, log, log, v, t, EnableSection(f, pc.version))
  {}

  lemma GuestPcMoves(f: Fields, log: seq<Observation>, v: Voice.Fields, t: Tid, pc: Pc, at: Voice.Pc, open: bool, choice: Choice)
    requires !IsOwner(pc) && !pc.Enable? && Fits(f, log, v, t, pc, at) && FieldsFit(f, log, v)
    requires VoiceEntry(pc) != Voice.Outside ==> at.Returned?
    ensures var section := PcSection(f, v.connection, pc, at == Voice.Returned(Voice.Good), choice);
      var longer := log + PcLog(f, pc, open, choice);
      GuestChange(f, log, section.fields, longer) && GuestMoves(f, log, longer, v, t, section)
  {
    if pc.Clean? && f.active.Some? {
      GrantsRemain(log, AskLog(f.active.value, open, choice.ended), f.active.value);
      CleanMoves(f, log, log + PcLog(f, pc, open, choice), v, t, pc, at, choice);
    } else {
      assert log + [] == log;
      if pc.Clean? { CleanMoves(f, log, log, v, t, pc, at, choice); }
      else if pc.PressEnter? { BeginMoves(f, log, v, t, pc, choice); }
      else if pc.ReleaseEnter? && (f.publication == Voice.Idle || f.publication == Voice.Stopping) {
        ReleaseEnterMoves(f, log, v, t, pc, at, choice);
      }
      else if pc.ReleaseEnter? { ReleaseBeginMoves(f, log, v, t, pc, at, choice); }
      else if pc.ReleaseCancel? || pc.ReleaseWait? { WaitMoves(f, log, v, t, pc, at, choice); }
      else if pc.RefreshEnter? || pc.RefreshFetch? || pc.ConnectEnter? || pc.ConnectFetch? { PlainGuestMoves(f, log, v, t, pc, at, choice); }
      else if pc.DisconnectEnter? || pc.RefreshSuspend? { SuspendMoves(f, log, v, t, pc, at, choice); }
      else if pc.Forget? || pc.Reset? { ForgetMoves(f, log, v, t, pc, at, choice); }
      else { LinkMoves(f, log, v, t, pc, at, choice); }
    }
  }

  lemma GuestProtocol(s: State, t: Tid, choice: Choice)
    requires Wired(s) && Protocol(s) && t in s.threads && !InVoice(s, t) && !IsOwner(s.threads[t])
    ensures var s' := OwnStep(s, t, choice); Wired(s') && Protocol(s')
  {
    var f, v, pc, at := s.fields, s.voice.fields, s.threads[t], s.voice.threads[t];
    var section := PcSection(f, v.connection, pc, at == Voice.Returned(Voice.Good), choice);
    var longer := s.log + PcLog(f, pc, s.voice.microphone, choice);
    assert Fits(f, s.log, v, t, pc, at);
    if pc.Enable? {
      EnableMoves(f, s.log, v, t, pc, at);
      assert longer == s.log;
    } else {
      GuestPcMoves(f, s.log, v, t, pc, at, s.voice.microphone, choice);
    }
    forall u <- s.threads | u != t
      ensures Fits(section.fields, longer, v, u, s.threads[u], s.voice.threads[u])
    {
      if pc.Enable? { OthersFitEnabled(f, s.log, pc.version, v, u, s.threads[u], s.voice.threads[u]); }
      else { OthersFit(f, s.log, section.fields, longer, v, u, s.threads[u], s.voice.threads[u]); }
    }
    SectionProtocol(s, longer, t, section);
  }

  // ---------------------------------------------------------------- steps of the voice client below

  /** Only a press leaves the voice client's idle state or changes its generation. */
  lemma QuietVoiceStep(v: Voice.State, t: Tid, choice: Voice.Choice)
    requires Voice.Inv(v) && t in v.threads
    requires !v.threads[t].PressEnter? && !Voice.IsPresser(v.threads[t])
    ensures var w := Voice.Step(v, t, choice).fields;
      && w.generation == v.fields.generation
      && (v.fields.publication == Voice.Idle ==> w.publication == Voice.Idle)
  {
    assert Voice.Fits(v.fields, v.threads[t]);
  }

  /** The voice client's own step keeps the shape of an operation and leaves it as its owner expects. */
  lemma VoiceStepMoves(s: State, t: Tid, choice: Choice)
    requires Wired(s) && Voice.Inv(s.voice) && t in s.threads && InVoice(s, t)
    requires VoiceFits(s.threads[t], s.voice.threads[t]) && VoiceQuiet(s.voice.fields, s.threads[t], s.voice.threads[t])
    ensures var s' := VoiceStep(s, t, choice);
      && t in s'.voice.threads
      && VoiceFits(s.threads[t], s'.voice.threads[t])
      && VoiceQuiet(s'.voice.fields, s.threads[t], s'.voice.threads[t])
  {
    assert Voice.Fits(s.voice.fields, s.voice.threads[t]);
    var at := s.voice.threads[t];
    match s.threads[t]
    case PressVoice(_, scope, _) => PressVoiceStep(s, t, choice);
    case PressUndoVoice(_, _) => ReleaseVoiceStep(s.voice, t, choice.voice, false);
    case ReleaseCancel(_, _) => ReleaseVoiceStep(s.voice, t, choice.voice, false);
    case ReleaseVoice(_, _, _) => ReleaseVoiceStep(s.voice, t, choice.voice, false);
    case Close(_) => LinkVoiceStep(s.voice, t, choice.voice);
    case Open(_) => LinkVoiceStep(s.voice, t, choice.voice);
  }

  lemma PressVoiceStep(s: State, t: Tid, choice: Choice)
    requires Wired(s) && Voice.Inv(s.voice) && t in s.threads && InVoice(s, t) && s.threads[t].PressVoice?
    requires VoiceFits(s.threads[t], s.voice.threads[t]) && VoiceQuiet(s.voice.fields, s.threads[t], s.voice.threads[t])
    ensures var s' := VoiceStep(s, t, choice);
      && t in s'.voice.threads
      && VoiceFits(s.threads[t], s'.voice.threads[t])
      && VoiceQuiet(s'.voice.fields, s.threads[t], s'.voice.threads[t])
  {
    assert Voice.Fits(s.voice.fields, s.voice.threads[t]);
  }

  lemma ReleaseVoiceStep(v: Voice.State, t: Tid, choice: Voice.Choice, closing: bool)
    requires Voice.Inv(v) && t in v.threads && IsRelease(v.threads[t], closing)
    ensures var w := Voice.Step(v, t, choice);
      && t in w.threads
      && (w.threads[t].Returned? || IsRelease(w.threads[t], closing) || (closing && w.threads[t].CloseTransport?))
      && (!closing && w.threads[t].ReleaseWait? && (v.threads[t].ReleaseWait? ==> v.threads[t].generation == v.fields.generation)
          ==> w.threads[t].generation == w.fields.generation)
      && (!closing && w.threads[t].Returned? && (v.threads[t].ReleaseWait? ==> v.threads[t].generation == v.fields.generation)
          ==> w.fields.publication == Voice.Idle)
  {
    assert Voice.Fits(v.fields, v.threads[t]);
  }

  lemma LinkVoiceStep(v: Voice.State, t: Tid, choice: Voice.Choice)
    requires t in v.threads
    ensures var at, w := v.threads[t], Voice.Step(v, t, choice);
      && t in w.threads
      && (at.ConnectEnter? || at.ConnectTransport? || at.ConnectFail? ==>
            var on := w.threads[t]; on.Returned? || on.ConnectTransport? || on.ConnectFail?)
      && (at.CloseEnter? || at.CloseTransport? || at.CloseFinish? || IsRelease(at, true) ==>
            var on := w.threads[t]; on.Returned? || on.CloseTransport? || on.CloseFinish? || IsRelease(on, true))
  {}

  /** Observing a microphone start changes nothing about grants and ends. */
  lemma OpenedKeepsLog(log: seq<Observation>, o: Observation, transmission: Transmission, scope: VoiceScope)
    requires o.Opened?
    ensures WasGranted(log + [o], transmission) == WasGranted(log, transmission)
    ensures Live(log + [o], transmission) == Live(log, transmission)
    ensures Ended(transmission) in log + [o] <==> Ended(transmission) in log
    ensures Granted(transmission, scope) in log + [o] <==> Granted(transmission, scope) in log
  {
    assert forall p: Observation :: p != o ==> (p in log + [o] <==> p in log);
  }

  lemma OpenedKeepsHolding(f: Fields, log: seq<Observation>, o: Observation, pc: Pc)
    requires o.Opened? && IsOwner(pc) && Holding(f, log, pc)
    ensures Holding(f, log + [o], pc)
  {
    if f.active.Some? { OpenedKeepsLog(log, o, f.active.value, if pc.PressVoice? then pc.scope else Team); }
    if pc.PressStored? && pc.granted.Some? { OpenedKeepsLog(log, o, pc.granted.value, pc.scope); }
  }

  lemma OpenedIsNeutral(f: Fields, log: seq<Observation>, o: Observation, v: Voice.Fields, u: Tid, pc: Pc, at: Voice.Pc)
    requires o.Opened? && Fits(f, log, v, u, pc, at)
    ensures Fits(f, log + [o], v, u, pc, at)
  {
    if IsOwner(pc) { OpenedKeepsHolding(f, log, o, pc); }
  }

  lemma OpenedIsNeutralToFields(f: Fields, log: seq<Observation>, o: Observation, v: Voice.Fields)
    requires o.Opened?
    ensures FieldsFit(f, log, v) ==> FieldsFit(f, log + [o], v)
  {
    if f.active.Some? { OpenedKeepsLog(log, o, f.active.value, Team); }
  }

  predicate StaysQuiet(v: Voice.Fields, w: Voice.Fields) {
    w.generation == v.generation && (v.publication == Voice.Idle ==> w.publication == Voice.Idle)
  }

  lemma BelowFits(f: Fields, log: seq<Observation>, v: Voice.Fields, w: Voice.Fields, u: Tid, pc: Pc, at: Voice.Pc)
    requires Fits(f, log, v, u, pc, at) && (IsOwner(pc) ==> StaysQuiet(v, w))
    ensures Fits(f, log, w, u, pc, at) && Fits(f, log, w, u, pc, Voice.Wake(at))
  {}

  /** Something happens in the voice client below: `mover` takes a step there, everybody else at most wakes. */
  lemma BelowProtocol(s: State, voice: Voice.State, mover: Option<Tid>)
    requires Wired(s) && Protocol(s) && voice.threads.Keys == s.voice.threads.Keys
    requires forall u <- s.threads :: Some(u) != mover ==>
      && (voice.threads[u] == s.voice.threads[u] || voice.threads[u] == Voice.Wake(s.voice.threads[u]))
      && (IsOwner(s.threads[u]) ==> StaysQuiet(s.voice.fields, voice.fields))
    requires mover.Some? ==>
      && mover.value in s.threads
      && Fits(s.fields, s.log, voice.fields, mover.value, s.threads[mover.value], voice.threads[mover.value])
    requires FieldsFit(s.fields, s.log, voice.fields)
    ensures Wired(s.(voice := voice)) && Protocol(s.(voice := voice))
  {
    forall u <- s.threads
      ensures Fits(s.fields, s.log, voice.fields, u, s.threads[u], voice.threads[u])
    {
      if Some(u) != mover {
        BelowFits(s.fields, s.log, s.voice.fields, voice.fields, u, s.threads[u], s.voice.threads[u]);
      }
    }
    if HasOwner(s) {
      var o :| o in s.threads && IsOwner(s.threads[o]);
      assert IsOwner(s.(voice := voice).threads[o]);
    }
  }

  /** The fields fit whatever a thread does in the voice client: only the owner of a press leaves idle there. */
  lemma VoiceStepFields(s: State, t: Tid, choice: Choice)
    requires Wired(s) && Voice.Inv(s.voice) && Protocol(s) && t in s.threads && InVoice(s, t)
    ensures FieldsFit(s.fields, s.log, Voice.Step(s.voice, t, choice.voice).fields)
    ensures forall u <- s.threads :: u != t && IsOwner(s.threads[u]) ==>
      StaysQuiet(s.voice.fields, Voice.Step(s.voice, t, choice.voice).fields)
  {
    assert Fits(s.fields, s.log, s.voice.fields, t, s.threads[t], s.voice.threads[t]);
    if !s.threads[t].PressVoice? {
      QuietVoiceStep(s.voice, t, choice.voice);
    }
  }

  lemma VoiceStepProtocol(s: State, t: Tid, choice: Choice)
    requires Wired(s) && Voice.Inv(s.voice) && Protocol(s) && t in s.threads && InVoice(s, t)
    ensures var s' := VoiceStep(s, t, choice); Wired(s') && Protocol(s')
  {
    var voice := Voice.Step(s.voice, t, choice.voice);
    assert Fits(s.fields, s.log, s.voice.fields, t, s.threads[t], s.voice.threads[t]);
    VoiceStepMoves(s, t, choice);
    VoiceStepFields(s, t, choice);
    Voice.OthersOnlyWake(s.voice, t, choice.voice);
    BelowProtocol(s, voice, Some(t));
    if s.threads[t].PressVoice? && s.voice.threads[t].PressStart? {
      OpenedProtocol(s.(voice := voice), Opened(s.threads[t].transmission, s.voice.threads[t].scope));
    }
  }

  lemma OpenedProtocol(s: State, o: Observation)
    requires Wired(s) && Protocol(s) && o.Opened?
    ensures Protocol(s.(log := s.log + [o]))
  {
    var s' := s.(log := s.log + [o]);
    forall u <- s.threads ensures Fits(s.fields, s'.log, s.voice.fields, u, s.threads[u], s.voice.threads[u]) {
      assert Fits(s.fields, s.log, s.voice.fields, u, s.threads[u], s.voice.threads[u]);
      OpenedIsNeutral(s.fields, s.log, o, s.voice.fields, u, s.threads[u], s.voice.threads[u]);
    }
    OpenedIsNeutralToFields(s.fields, s.log, o, s.voice.fields);
    if HasOwner(s) {
      var u :| u in s.threads && IsOwner(s.threads[u]);
      assert IsOwner(s'.threads[u]);
    }
  }

  // ---------------------------------------------------------------- the log stays lawful

  lemma LawfulMore(log: seq<Observation>, o: Observation)
    requires Lawful(log) && LawfulAfter(log, o)
    ensures Lawful(log + [o])
  {
    var longer := log + [o];
    forall i | 0 <= i < |longer| ensures LawfulAfter(longer[..i], longer[i]) {
      assert longer[..i] == log[..i];
      if i == |log| { assert log[..i] == log; }
    }
  }

  /** Only a transmission the server has started is ever asked to end, or ends. */
  lemma EndsAreGranted(log: seq<Observation>, transmission: Transmission)
    requires Lawful(log)
    ensures WasEndAsked(log, transmission) || Ended(transmission) in log ==> WasGranted(log, transmission)
  {
    if Ended(transmission) in log {
      var i :| 0 <= i < |log| && log[i] == Ended(transmission);
      assert LawfulAfter(log[..i], log[i]);
    }
    if WasEndAsked(log, transmission) {
      var i :| 0 <= i < |log| && log[i].EndAsked? && log[i].transmission == transmission;
      assert LawfulAfter(log[..i], log[i]);
    }
  }

  lemma LawfulAsk(log: seq<Observation>, transmission: Transmission, open: bool, ended: bool)
    requires Lawful(log) && WasGranted(log, transmission)
    ensures Lawful(log + AskLog(transmission, open, ended))
  {
    var asked := log + [EndAsked(transmission, open)];
    LawfulMore(log, EndAsked(transmission, open));
    assert asked[|log|] == EndAsked(transmission, open);
    if ended {
      LawfulMore(asked, Ended(transmission));
      assert log + AskLog(transmission, open, ended) == asked + [Ended(transmission)];
    } else {
      assert log + AskLog(transmission, open, ended) == asked;
    }
  }

  /** Every end is asked for a started transmission, while the voice client is idle. */
  lemma AsksAreQuiet(f: Fields, log: seq<Observation>, v: Voice.Fields, t: Tid, pc: Pc, at: Voice.Pc)
    requires Fits(f, log, v, t, pc, at) && FieldsFit(f, log, v)
    requires pc.PressCancelEnd? || pc.PressRollbackEnd? || pc.PressUndoEnd? || pc.ReleaseEnd?
    ensures v.publication == Voice.Idle && Held(f, pc.transmission) && WasGranted(log, pc.transmission)
  {}

  lemma PcLogLawful(s: State, t: Tid, choice: Choice)
    requires Inv(s) && Enabled(s, Stepped(t, choice)) && !InVoice(s, t)
    ensures Lawful(s.log + PcLog(s.fields, s.threads[t], s.voice.microphone, choice))
  {
    var f, v, pc, at := s.fields, s.voice.fields, s.threads[t], s.voice.threads[t];
    assert Fits(f, s.log, v, t, pc, at);
    if pc.PressServer? {
      if choice.granted.Some? { LawfulMore(s.log, Granted(choice.granted.value, pc.scope)); }
    } else if pc.PressCancelEnd? || pc.PressRollbackEnd? || pc.PressUndoEnd? || pc.ReleaseEnd? {
      AsksAreQuiet(f, s.log, v, t, pc, at);
      LawfulAsk(s.log, pc.transmission, s.voice.microphone, choice.ended);
    } else if pc.Clean? && f.active.Some? {
      LawfulAsk(s.log, f.active.value, s.voice.microphone, choice.ended);
    }
    assert s.log + [] == s.log;
  }

  lemma AskLogEnds(transmission: Transmission, open: bool, ended: bool)
    ensures ended ==> Ended(transmission) in AskLog(transmission, open, ended)
  {
    if ended { assert AskLog(transmission, open, ended)[1] == Ended(transmission); }
  }

  /** A step never drops a started transmission: what is active stays so until the server has ended it. */
  lemma PcKeeps(f: Fields, log: seq<Observation>, v: Voice.Fields, t: Tid, pc: Pc, at: Voice.Pc, good: bool, open: bool,
                choice: Choice, transmission: Transmission)
    requires Fits(f, log, v, t, pc, at)
    requires Ended(transmission) !in log + PcLog(f, pc, open, choice)
    requires f.active == Some(transmission) || Carries(pc, transmission)
    ensures PcSection(f, v.connection, pc, good, choice).fields.active == Some(transmission)
  {
    AskLogEnds(transmission, open, choice.ended);
  }

  /** What the server starts in this step, the thread carries on. */
  lemma PcCarries(f: Fields, log: seq<Observation>, v: Voice.Fields, pc: Pc, good: bool, open: bool, choice: Choice,
                  transmission: Transmission)
    requires !WasGranted(log, transmission) && WasGranted(log + PcLog(f, pc, open, choice), transmission)
    ensures Carries(PcSection(f, v.connection, pc, good, choice).next, transmission)
  {
    assert WasGranted(PcLog(f, pc, open, choice), transmission);
  }

  lemma OwnStepKeeps(s: State, t: Tid, choice: Choice, transmission: Transmission)
    requires Inv(s) && t in s.threads && !InVoice(s, t)
    requires Outstanding(OwnStep(s, t, choice).log, transmission)
    ensures var s' := OwnStep(s, t, choice);
      s'.fields.active == Some(transmission) || exists u :: u in s'.threads && Carries(s'.threads[u], transmission)
  {
    var f, v, pc, at := s.fields, s.voice.fields, s.threads[t], s.voice.threads[t];
    var s', open, good := OwnStep(s, t, choice), s.voice.microphone, at == Voice.Returned(Voice.Good);
    assert Fits(f, s.log, v, t, pc, at);
    EnterOthers(s.(log := s.log + PcLog(f, pc, open, choice)), t, PcSection(f, v.connection, pc, good, choice));
    if !WasGranted(s.log, transmission) {
      PcCarries(f, s.log, v, pc, good, open, choice, transmission);
      assert Carries(s'.threads[t], transmission);
    } else if f.active == Some(transmission) || Carries(pc, transmission) {
      PcKeeps(f, s.log, v, t, pc, at, good, open, choice, transmission);
    } else {
      assert Outstanding(s.log, transmission);
      CarrierRemains(s, s', t, transmission);
    }
  }

  lemma CarrierRemains(s: State, s': State, t: Tid, transmission: Transmission)
    requires exists u :: u in s.threads && Carries(s.threads[u], transmission)
    requires t in s.threads && !Carries(s.threads[t], transmission) && s'.threads.Keys == s.threads.Keys
    requires forall u <- s.threads :: u != t ==> s'.threads[u] == s.threads[u] || s'.threads[u] == Wake(s.threads[u])
    ensures exists u :: u in s'.threads && Carries(s'.threads[u], transmission)
  {
    var u :| u in s.threads && Carries(s.threads[u], transmission);
    assert Carries(s'.threads[u], transmission);
  }

  lemma OwnStepInv(s: State, t: Tid, choice: Choice)
    requires Inv(s) && Enabled(s, Stepped(t, choice)) && !InVoice(s, t)
    ensures Inv(OwnStep(s, t, choice))
  {
    var pc, at := s.threads[t], s.voice.threads[t];
    var more := PcLog(s.fields, pc, s.voice.microphone, choice);
    if choice.granted.Some? { EndsAreGranted(s.log, choice.granted.value); }
    if IsOwner(pc) { OwnerProtocol(s, t, choice); } else { GuestProtocol(s, t, choice); }
    NotInCall(s, t);
    EnterVoice(s.(log := s.log + more), t,
               PcSection(s.fields, s.voice.fields.connection, pc, at == Voice.Returned(Voice.Good), choice));
    PcLogLawful(s, t, choice);
    forall transmission: Transmission | Outstanding(OwnStep(s, t, choice).log, transmission)
      ensures OwnStep(s, t, choice).fields.active == Some(transmission)
        || exists u :: u in OwnStep(s, t, choice).threads && Carries(OwnStep(s, t, choice).threads[u], transmission)
    {
      OwnStepKeeps(s, t, choice, transmission);
    }
  }

  lemma VoiceStepInv(s: State, t: Tid, choice: Choice)
    requires Inv(s) && t in s.threads && InVoice(s, t)
    ensures Inv(VoiceStep(s, t, choice))
  {
    var s', pc, at := VoiceStep(s, t, choice), s.threads[t], s.voice.threads[t];
    Voice.StepOwnership(s.voice, t, choice.voice);
    Voice.StepMicrophone(s.voice, t, choice.voice);
    VoiceStepProtocol(s, t, choice);
    VoiceStepLog(s, t, choice);
  }

  /** What a step of the voice client adds to the log is lawful and grants or ends nothing. */
  lemma VoiceStepLog(s: State, t: Tid, choice: Choice)
    requires Inv(s) && t in s.threads && InVoice(s, t)
    ensures Lawful(VoiceStep(s, t, choice).log)
    ensures forall transmission: Transmission :: Outstanding(VoiceStep(s, t, choice).log, transmission) ==> Outstanding(s.log, transmission)
  {
    var pc, at := s.threads[t], s.voice.threads[t];
    assert Fits(s.fields, s.log, s.voice.fields, t, pc, at);
    if pc.PressVoice? && at.PressStart? {
      LawfulMore(s.log, Opened(pc.transmission, at.scope));
    }
  }

  lemma EntryFits(f: Fields, log: seq<Observation>, v: Voice.Fields, t: Tid, entry: Pc)
    requires IsEntry(t, entry)
    ensures Fits(f, log, v, t, entry, VoiceEntry(entry)) && !IsOwner(entry)
  {}

  lemma MoveKeepsCarriers(s: State, t: Tid, next: Pc)
    requires Wired(s) && NothingForgotten(s) && t in s.threads && !IsOwner(s.threads[t])
    ensures Wired(Goto(s, t, next)) && NothingForgotten(Goto(s, t, next))
  {
    var s' := Goto(s, t, next);
    forall transmission: Transmission | Outstanding(s.log, transmission) && s.fields.active != Some(transmission)
      ensures exists u :: u in s'.threads && Carries(s'.threads[u], transmission)
    {
      var u :| u in s.threads && Carries(s.threads[u], transmission);
      assert Carries(s'.threads[u], transmission);
    }
  }

  /** A thread that owns nothing goes to another position that owns nothing. */
  lemma MoveInv(s: State, t: Tid, next: Pc)
    requires Inv(s) && t in s.threads && !IsOwner(s.threads[t]) && !IsOwner(next)
    requires !Voice.InCall(s.voice.threads[t])
    requires Fits(s.fields, s.log, s.voice.fields, t, next, VoiceEntry(next))
    ensures Inv(Goto(s, t, next))
  {
    var section := Section(s.fields, next, false);
    assert Enter(s, t, section) == Goto(s, t, next);
    OwnerInTransition(s);
    EnterOthers(s, t, section);
    EnterOwned(s, t, section);
    EnterVoice(s, t, section);
    MoveKeepsCarriers(s, t, next);
  }

  lemma WakeFits(f: Fields, log: seq<Observation>, v: Voice.Fields, t: Tid, pc: Pc, at: Voice.Pc)
    requires Fits(f, log, v, t, pc, at)
    ensures Fits(f, log, v, t, Wake(pc), at)
  {}

  /** Waking a thread changes no role: whoever owned before still does. */
  lemma DisturbProtocol(s: State, t: Tid)
    requires Wired(s) && Protocol(s) && t in s.threads
    ensures Protocol(s.(threads := s.threads[t := Wake(s.threads[t])]))
  {
    var s' := s.(threads := s.threads[t := Wake(s.threads[t])]);
    WakeFits(s.fields, s.log, s.voice.fields, t, s.threads[t], s.voice.threads[t]);
    assert forall u <- s.threads :: IsOwner(s'.threads[u]) == IsOwner(s.threads[u]);
    KeepsOwner(s, s');
  }

  lemma DisturbInv(s: State, t: Tid)
    requires Inv(s) && t in s.threads
    ensures Inv(s.(threads := s.threads[t := Wake(s.threads[t])]))
  {
    var s' := s.(threads := s.threads[t := Wake(s.threads[t])]);
    DisturbProtocol(s, t);
    assert forall u <- s.threads, transmission: Transmission :: Carries(s'.threads[u], transmission) == Carries(s.threads[u], transmission);
    forall transmission: Transmission | Outstanding(s.log, transmission) && s.fields.active != Some(transmission)
      ensures exists u :: u in s'.threads && Carries(s'.threads[u], transmission)
    {
      var u :| u in s.threads && Carries(s.threads[u], transmission);
      assert Carries(s'.threads[u], transmission);
    }
  }

  lemma KeepsOwner(s: State, s': State)
    requires s'.threads.Keys == s.threads.Keys
    requires forall u <- s.threads :: IsOwner(s'.threads[u]) == IsOwner(s.threads[u])
    ensures HasOwner(s) ==> HasOwner(s')
  {
    if HasOwner(s) {
      var u :| u in s.threads && IsOwner(s.threads[u]);
      assert IsOwner(s'.threads[u]);
    }
  }

  /** A report or a spurious wake-up in the voice client below. */
  lemma BelowInv(s: State, voice: Voice.State)
    requires Inv(s) && Voice.Inv(voice) && voice.threads.Keys == s.voice.threads.Keys
    requires forall u <- s.threads ::
      voice.threads[u] == s.voice.threads[u] || voice.threads[u] == Voice.Wake(s.voice.threads[u])
    requires StaysQuiet(s.voice.fields, voice.fields) && (s.voice.stopBroke ==> voice.stopBroke)
    ensures Inv(s.(voice := voice))
  {
    BelowProtocol(s, voice, None);
  }

  /** The invariant holds in every interleaving of calls, steps, server answers and transport reports. */
  lemma NextInv(s: State, e: Event)
    requires Inv(s) && Enabled(s, e)
    ensures Inv(Next(s, e))
  {
    match e
    case Called(t, entry) => CalledInv(s, t, entry);
    case Stepped(t, choice) => if InVoice(s, t) { VoiceStepInv(s, t, choice); } else { OwnStepInv(s, t, choice); }
    case Reported(connection, silenced) => ReportedInv(s, connection, silenced);
    case Disturbed(t) => DisturbInv(s, t);
    case VoiceDisturbed(t) => VoiceDisturbedInv(s, t);
  }

  lemma CalledInv(s: State, t: Tid, entry: Pc)
    requires Inv(s) && Enabled(s, Called(t, entry))
    ensures Inv(Goto(s, t, entry))
  {
    EntryFits(s.fields, s.log, s.voice.fields, t, entry);
    assert Fits(s.fields, s.log, s.voice.fields, t, s.threads[t], s.voice.threads[t]);
    MoveInv(s, t, entry);
  }

  lemma ReportedInv(s: State, connection: Voice.Connection, silenced: bool)
    requires Inv(s)
    ensures Inv(s.(voice := Voice.Report(s.voice, connection, silenced)))
  {
    Voice.NextInv(s.voice, Voice.Reported(connection, silenced));
    BelowInv(s, Voice.Report(s.voice, connection, silenced));
  }

  lemma VoiceDisturbedInv(s: State, t: Tid)
    requires Inv(s) && t in s.voice.threads
    ensures Inv(s.(voice := Voice.Disturb(s.voice, t)))
  {
    Voice.NextInv(s.voice, Voice.Disturbed(t));
    BelowInv(s, Voice.Disturb(s.voice, t));
  }

  predicate CanRun(s: State, events: seq<Event>)
    decreases |events|
  {
    events == [] || (Enabled(s, events[0]) && CanRun(Next(s, events[0]), events[1..]))
  }

  function Run(s: State, events: seq<Event>): State
    requires CanRun(s, events)
    decreases |events|
  {
    if events == [] then s else Run(Next(s, events[0]), events[1..])
  }

  lemma {:induction false} RunInv(s: State, events: seq<Event>)
    requires Inv(s) && CanRun(s, events)
    ensures Inv(Run(s, events))
    decreases |events|
  {
    if events != [] {
      NextInv(s, events[0]);
      RunInv(Next(s, events[0]), events[1..]);
    }
  }

  // ---------------------------------------------------------------- main results

  /** Only the presser of a generation in transition carries a transmission, and then none is active. */
  lemma CarrierOwns(s: State)
    requires Inv(s)
    ensures forall t, transmission :: t in s.threads && Carries(s.threads[t], transmission) ==>
      InTransition(s.fields) && s.fields.active.None? && IsOwner(s.threads[t])
  {
    forall t, transmission | t in s.threads && Carries(s.threads[t], transmission)
      ensures InTransition(s.fields) && s.fields.active.None? && IsOwner(s.threads[t])
    {
      assert Fits(s.fields, s.log, s.voice.fields, t, s.threads[t], s.voice.threads[t]);
    }
  }

  /** At most one transmission is outstanding, and it is remembered until the server has ended it. */
  lemma OneOutstandingTransmission(s: State, events: seq<Event>, a: Transmission, b: Transmission)
    requires Init(s) && CanRun(s, events)
    requires var log := Run(s, events).log; Outstanding(log, a) && Outstanding(log, b)
    ensures a == b
    ensures var s' := Run(s, events);
      s'.fields.active == Some(a) || exists t :: t in s'.threads && Carries(s'.threads[t], a)
  {
    InitInv(s);
    RunInv(s, events);
    CarrierOwns(Run(s, events));
  }

  /** After a disconnect has gone through, and until the next connect, nothing is outstanding and nothing is open. */
  lemma DisconnectedIsClean(s: State, events: seq<Event>, transmission: Transmission)
    requires Init(s) && CanRun(s, events)
    requires Run(s, events).fields.membership.None?
    ensures var s' := Run(s, events);
      && !Outstanding(s'.log, transmission)
      && s'.fields.publication == Voice.Idle && s'.voice.fields.publication == Voice.Idle
      && (!s'.voice.stopBroke ==> !s'.voice.microphone)
  {
    InitInv(s);
    RunInv(s, events);
    CarrierOwns(Run(s, events));
  }

  // ---------------------------------------------------------------- no lost wake-up

  /** A generation that is stopping although nobody owns it. */
  ghost predicate Stranded(s: State) {
    Wired(s) && s.fields.publication == Voice.Stopping && !HasOwner(s)
  }

  /** A sleeping releaser waits for the generation that is stopping, which a thread owns unless it is stranded. */
  lemma SleeperHasOwner(s: State, t: Tid)
    requires Inv(s) && t in s.threads && s.threads[t].ReleaseWait? && s.threads[t].asleep
    ensures s.threads[t].generation == s.fields.generation && s.fields.publication == Voice.Stopping
    ensures (exists u <- s.threads :: IsOwner(s.threads[u]) && s.threads[u].generation == s.threads[t].generation) <==> !Stranded(s)
  {
    assert Fits(s.fields, s.log, s.voice.fields, t, s.threads[t], s.voice.threads[t]);
    if !Stranded(s) {
      var u :| u in s.threads && IsOwner(s.threads[u]);
      assert Fits(s.fields, s.log, s.voice.fields, u, s.threads[u], s.voice.threads[u]);
    }
  }

  ghost function OwnerOf(s: State): (t: Tid)
    requires HasOwner(s)
    ensures t in s.threads && IsOwner(s.threads[t])
  {
    var t :| t in s.threads && IsOwner(s.threads[t]);
    t
  }

  /** Steps an owner's voice client call still needs, its own and those of the thread it waits for there. */
  ghost function VoiceWork(v: Voice.State, t: Tid): nat
    requires t in v.threads
  {
    var at := v.threads[t];
    if at.PressEnter? then 6
    else if at.ReleaseEnter? then 8
    else if at.ReleaseWait? then if Voice.WaitOver(v.fields, at.generation) then 1 else 2 + Voice.OwnerRemaining(v)
    else Voice.Remaining(at)
  }

  /** Steps the owner's own position still needs, in tens. */
  function PcWork(pc: Pc): nat {
    match pc
    case PressServer(_, _, _) => 90
    case PressStored(_, _, _) => 80
    case PressVoice(_, _, _) => 70
    case PressVoiceDone(_, _, _) => 60
    case PressConfirm(_, _) => 50
    case PressUndoVoice(_, _) => 40
    case ReleaseVoice(_, _, _) => 40
    case PressCancelEnd(_, _) => 30
    case PressRollbackEnd(_, _) => 30
    case PressUndoEnd(_, _) => 30
    case ReleaseEnd(_, _, _, _) => 30
    case _ => 20
  }

  ghost function Work(s: State): nat
    requires Wired(s) && HasOwner(s)
  {
    var o := OwnerOf(s);
    PcWork(s.threads[o]) + if VoiceEntry(s.threads[o]) == Voice.Outside then 0 else VoiceWork(s.voice, o)
  }

  /** The owner is waiting inside the voice client for another thread to stop the microphone. */
  predicate Blocked(v: Voice.State, t: Tid)
    requires t in v.threads
  {
    v.threads[t].ReleaseWait? && !Voice.WaitOver(v.fields, v.threads[t].generation)
  }

  /** Whose turn brings the stopping generation to its end. */
  ghost function Responsible(s: State): Tid
    requires Wired(s) && HasOwner(s)
  {
    var o := OwnerOf(s);
    if Blocked(s.voice, o) && Voice.HasOwner(s.voice) then Voice.OwnerOf(s.voice) else o
  }

  /** The owner's own step shortens its work, or ends the generation. */
  lemma OwnerPcWorks(f: Fields, log: seq<Observation>, v: Voice.Fields, t: Tid, pc: Pc, at: Voice.Pc, good: bool, choice: Choice)
    requires Fits(f, log, v, t, pc, at) && IsOwner(pc) && f.publication == Voice.Stopping
    ensures var section := PcSection(f, v.connection, pc, good, choice);
      if IsOwner(section.next)
      then section.fields.publication == Voice.Stopping && PcWork(section.next) + 10 <= PcWork(pc)
      else section.fields.publication == Voice.Idle
  {}

  /** Whatever others do in the voice client never lengthens the owner's call, and shortens it if it waits for them. */
  lemma OthersShortenCall(v: Voice.State, e: Voice.Event, o: Tid)
    requires Voice.Inv(v) && Voice.Enabled(v, e) && o in v.threads && !(e.Stepped? && e.t == o) && !(e.Called? && e.t == o)
    requires v.threads[o].ReleaseWait? ==> v.threads[o].generation == v.fields.generation
    ensures o in Voice.Next(v, e).threads && VoiceWork(Voice.Next(v, e), o) <= VoiceWork(v, o)
    ensures Blocked(v, o) && e.Stepped? && Voice.HasOwner(v) && e.t == Voice.OwnerOf(v) ==>
      VoiceWork(Voice.Next(v, e), o) < VoiceWork(v, o)
  {
    var w := Voice.Next(v, e);
    if e.Stepped? { Voice.OthersOnlyWake(v, e.t, e.choice); }
    assert w.threads[o] == v.threads[o] || w.threads[o] == Voice.Wake(v.threads[o]);
    assert Voice.Fits(v.fields, v.threads[o]);
    if v.threads[o].ReleaseWait? {
      if Voice.WaitOver(v.fields, v.fields.generation) {
        Voice.WaitOverStays(v, e, v.fields.generation);
      } else if !Voice.WaitOver(w.fields, v.fields.generation) {
        Voice.NextInv(v, e);
        assert Voice.Fits(w.fields, w.threads[o]);
        Voice.OwnerRemainingShrinks(v, e);
      }
    }
  }

  /** Its own step in the voice client shortens the owner's call, unless it is blocked there. */
  lemma OwnVoiceStepWorks(v: Voice.State, o: Tid, choice: Voice.Choice)
    requires Voice.Inv(v) && o in v.threads
    requires v.threads[o].PressEnter? || Voice.IsPresser(v.threads[o]) || IsRelease(v.threads[o], false)
    ensures var w := Voice.Step(v, o, choice);
      && o in w.threads
      && VoiceWork(w, o) <= VoiceWork(v, o)
      && (!Blocked(v, o) ==> VoiceWork(w, o) < VoiceWork(v, o))
  {
    var w := Voice.Step(v, o, choice);
    assert Voice.Fits(v.fields, v.threads[o]);
    Voice.StepOwnership(v, o, choice);
    assert Voice.Fits(w.fields, w.threads[o]);
    RemainingIsSmall(w);
    if Blocked(v, o) { BlockedStepKeeps(v, o, choice); }
  }

  lemma RemainingIsSmall(v: Voice.State)
    ensures Voice.OwnerRemaining(v) <= 5
  {}

  lemma BlockedStepKeeps(v: Voice.State, o: Tid, choice: Voice.Choice)
    requires Voice.Inv(v) && o in v.threads && Blocked(v, o)
    ensures var w := Voice.Step(v, o, choice); o in w.threads && VoiceWork(w, o) <= VoiceWork(v, o)
  {
    assert Voice.Fits(v.fields, v.threads[o]);
    assert Voice.InTransition(v.fields);
    Voice.OwnerRemainingShrinks(v, Voice.Stepped(o, choice));
  }

  /** A thread entering or leaving the voice client there does not touch the owner's call. */
  lemma EntryKeepsCall(v: Voice.State, t: Tid, at: Voice.Pc, o: Tid)
    requires Voice.OneOwner(v) && t in v.threads && o in v.threads && t != o
    requires !Voice.IsOwner(v.threads[t]) && !Voice.IsOwner(at)
    ensures var w := v.(threads := v.threads[t := at]); VoiceWork(w, o) == VoiceWork(v, o)
  {
    var w := v.(threads := v.threads[t := at]);
    assert forall u <- v.threads :: Voice.IsOwner(w.threads[u]) == Voice.IsOwner(v.threads[u]);
    if Voice.HasOwner(v) {
      assert Voice.IsOwner(w.threads[Voice.OwnerOf(v)]);
      assert Voice.OwnerOf(w) == Voice.OwnerOf(v);
    }
  }

  /** The owner, as it stands: its position fits, and a wait of its own is for the voice client's generation. */
  lemma OwnerFacts(s: State)
    requires Inv(s) && HasOwner(s)
    ensures var o := OwnerOf(s); var at := s.voice.threads[o];
      && Fits(s.fields, s.log, s.voice.fields, o, s.threads[o], at)
      && (at.ReleaseWait? ==> at.generation == s.voice.fields.generation)
      && (InVoice(s, o) ==> at.PressEnter? || Voice.IsPresser(at) || IsRelease(at, false))
  {}

  lemma SameOwner(s: State, s': State)
    requires HasOwner(s) && OneOwner(s') && OwnerOf(s) in s'.threads && IsOwner(s'.threads[OwnerOf(s)])
    ensures HasOwner(s') && OwnerOf(s') == OwnerOf(s)
  {}

  /** One event of a stopping generation: it ends in idle, or its owner stays and its work does not grow. */
  ghost predicate Progress(s: State, s': State, responsible: bool)
    requires Wired(s) && Wired(s') && HasOwner(s)
  {
    && s'.fields.generation == s.fields.generation
    && (s'.fields.publication == Voice.Idle ||
        (s'.fields.publication == Voice.Stopping && HasOwner(s') && Work(s') <= Work(s) && (responsible ==> Work(s') < Work(s))))
  }

  function StepSection(s: State, t: Tid, choice: Choice): Section
    requires Wired(s) && t in s.threads
  {
    PcSection(s.fields, s.voice.fields.connection, s.threads[t], s.voice.threads[t] == Voice.Returned(Voice.Good), choice)
  }

  /** What a thread's own step does to itself, to the other threads and to the voice client. */
  lemma OwnStepFacts(s: State, t: Tid, choice: Choice)
    requires Wired(s) && t in s.threads && !InVoice(s, t)
    ensures var s' := OwnStep(s, t, choice); var section := StepSection(s, t, choice);
      && Wired(s') && s'.threads.Keys == s.threads.Keys
      && s'.fields == section.fields && s'.threads[t] == section.next
      && s'.voice == s.voice.(threads := s.voice.threads[t := VoiceEntry(section.next)])
      && forall u <- s.threads :: u != t ==> s'.threads[u] == s.threads[u] || s'.threads[u] == Wake(s.threads[u])
  {
    var s', section := OwnStep(s, t, choice), StepSection(s, t, choice);
    EnterOthers(s.(log := s.log + PcLog(s.fields, s.threads[t], s.voice.microphone, choice)), t, section);
    assert s'.voice.threads == s.voice.threads[t := VoiceEntry(section.next)];
  }

  lemma NextOneOwner(s: State, e: Event)
    requires Inv(s) && Enabled(s, e)
    ensures Wired(Next(s, e)) && OneOwner(Next(s, e))
  {
    NextInv(s, e);
  }

  /** The owner's work does not change while another thread enters or leaves the voice client. */
  lemma EntryKeepsWork(s: State, s': State, t: Tid, at: Voice.Pc)
    requires Wired(s) && Wired(s') && Voice.OneOwner(s.voice) && HasOwner(s) && OneOwner(s')
    requires t in s.threads && t != OwnerOf(s) && !Voice.IsOwner(s.voice.threads[t]) && !Voice.IsOwner(at)
    requires OwnerOf(s) in s'.threads && s'.threads[OwnerOf(s)] == s.threads[OwnerOf(s)]
    requires s'.voice == s.voice.(threads := s.voice.threads[t := at])
    ensures HasOwner(s') && Work(s') == Work(s)
  {
    SameOwner(s, s');
    EntryKeepsCall(s.voice, t, at, OwnerOf(s));
  }

  lemma EntryWork(v: Voice.State, t: Tid, pc: Pc)
    requires t in v.threads && v.threads[t] == VoiceEntry(pc) && IsOwner(pc)
    ensures (if VoiceEntry(pc) == Voice.Outside then 0 else VoiceWork(v, t)) <= 8
  {}

  lemma OwnerOwnStepProgress(s: State, choice: Choice)
    requires Inv(s) && s.fields.publication == Voice.Stopping && HasOwner(s)
    requires !InVoice(s, OwnerOf(s)) && Enabled(s, Stepped(OwnerOf(s), choice))
    ensures Wired(OwnStep(s, OwnerOf(s), choice)) && Progress(s, OwnStep(s, OwnerOf(s), choice), true)
  {
    var o := OwnerOf(s);
    var s', pc, at, v := OwnStep(s, o, choice), s.threads[o], s.voice.threads[o], s.voice.fields;
    OwnerFacts(s);
    OwnerPcWorks(s.fields, s.log, v, o, pc, at, at == Voice.Returned(Voice.Good), choice);
    OwnerPcKeepsGeneration(s.fields, v.connection, pc, at == Voice.Returned(Voice.Good), choice);
    OwnStepFacts(s, o, choice);
    NextOneOwner(s, Stepped(o, choice));
    if IsOwner(s'.threads[o]) {
      SameOwner(s, s');
      EntryWork(s'.voice, o, s'.threads[o]);
    }
  }

  lemma OwnerPcKeepsGeneration(f: Fields, connection: Voice.Connection, pc: Pc, good: bool, choice: Choice)
    requires IsOwner(pc)
    ensures PcSection(f, connection, pc, good, choice).fields.generation == f.generation
  {}

  lemma GuestSection(f: Fields, log: seq<Observation>, v: Voice.Fields, t: Tid, pc: Pc, at: Voice.Pc, good: bool, choice: Choice)
    requires Fits(f, log, v, t, pc, at) && !IsOwner(pc) && f.publication == Voice.Stopping
    ensures var g := PcSection(f, v.connection, pc, good, choice).fields;
      g.publication == Voice.Stopping && g.generation == f.generation
  {}

  lemma GuestEnterFacts(s: State, t: Tid, section: Section)
    requires Wired(s) && HasOwner(s) && t in s.threads && t != OwnerOf(s)
    ensures var s' := Enter(s, t, section);
      && Wired(s') && OwnerOf(s) in s'.threads && s'.threads[OwnerOf(s)] == s.threads[OwnerOf(s)]
      && s'.fields == section.fields
      && s'.voice == s.voice.(threads := s.voice.threads[t := VoiceEntry(section.next)])
  {
    assert Wake(s.threads[OwnerOf(s)]) == s.threads[OwnerOf(s)];
  }

  lemma GuestEnterProgress(s: State, t: Tid, section: Section)
    requires Wired(s) && Voice.OneOwner(s.voice) && HasOwner(s) && s.fields.publication == Voice.Stopping
    requires t in s.threads && t != OwnerOf(s) && !Voice.IsOwner(s.voice.threads[t])
    requires section.fields.publication == Voice.Stopping && section.fields.generation == s.fields.generation
    requires OneOwner(Enter(s, t, section))
    ensures Wired(Enter(s, t, section)) && Progress(s, Enter(s, t, section), false)
  {
    GuestEnterFacts(s, t, section);
    EntryKeepsWork(s, Enter(s, t, section), t, VoiceEntry(section.next));
  }

  lemma GuestOwnStepProgress(s: State, t: Tid, choice: Choice)
    requires Inv(s) && s.fields.publication == Voice.Stopping && HasOwner(s) && Enabled(s, Stepped(t, choice))
    requires t != OwnerOf(s) && !InVoice(s, t)
    ensures Wired(OwnStep(s, t, choice)) && Progress(s, OwnStep(s, t, choice), false)
  {
    GuestFacts(s, t, choice);
    NextOneOwner(s, Stepped(t, choice));
    var logged := s.(log := s.log + PcLog(s.fields, s.threads[t], s.voice.microphone, choice));
    SameOwner(s, logged);
    GuestEnterProgress(logged, t, StepSection(s, t, choice));
  }

  lemma GuestFacts(s: State, t: Tid, choice: Choice)
    requires Inv(s) && s.fields.publication == Voice.Stopping && HasOwner(s)
    requires t in s.threads && t != OwnerOf(s) && !InVoice(s, t)
    ensures var g := StepSection(s, t, choice).fields;
      g.publication == Voice.Stopping && g.generation == s.fields.generation
    ensures !IsOwner(s.threads[t]) && !Voice.IsOwner(s.voice.threads[t])
  {
    var at := s.voice.threads[t];
    assert Fits(s.fields, s.log, s.voice.fields, t, s.threads[t], at);
    NotInCall(s, t);
    GuestSection(s.fields, s.log, s.voice.fields, t, s.threads[t], at, at == Voice.Returned(Voice.Good), choice);
  }

  lemma OwnerVoiceStepProgress(s: State, choice: Choice)
    requires Inv(s) && s.fields.publication == Voice.Stopping && HasOwner(s) && InVoice(s, OwnerOf(s))
    ensures var s' := VoiceStep(s, OwnerOf(s), choice);
      Wired(s') && Progress(s, s', !Blocked(s.voice, OwnerOf(s)))
  {
    var o := OwnerOf(s);
    OwnerFacts(s);
    VoiceStepInv(s, o, choice);
    OwnVoiceStepWorks(s.voice, o, choice.voice);
    SameOwner(s, VoiceStep(s, o, choice));
  }

  /** Somebody else's step, a report or a wake-up in the voice client below. */
  lemma BelowProgress(s: State, e: Voice.Event, s': State)
    requires Inv(s) && s.fields.publication == Voice.Stopping && HasOwner(s) && Voice.Enabled(s.voice, e)
    requires !(e.Stepped? && e.t == OwnerOf(s)) && !e.Called?
    requires Inv(s') && s'.fields == s.fields && s'.threads == s.threads && s'.voice == Voice.Next(s.voice, e)
    ensures Progress(s, s', e.Stepped? && e.t == Responsible(s))
  {
    OwnerFacts(s);
    OthersShortenCall(s.voice, e, OwnerOf(s));
    SameOwner(s, s');
  }

  lemma CallerIsGuest(s: State, t: Tid)
    requires Inv(s) && HasOwner(s) && t in s.threads && !IsOwner(s.threads[t]) && !InVoice(s, t)
    ensures t != OwnerOf(s) && !Voice.IsOwner(s.voice.threads[t])
  {
    NotInCall(s, t);
  }

  lemma GotoProgress(s: State, t: Tid, next: Pc)
    requires Wired(s) && Voice.OneOwner(s.voice) && HasOwner(s) && s.fields.publication == Voice.Stopping
    requires t in s.threads && t != OwnerOf(s) && !Voice.IsOwner(s.voice.threads[t]) && OneOwner(Goto(s, t, next))
    ensures Wired(Goto(s, t, next)) && Progress(s, Goto(s, t, next), false)
  {
    EntryKeepsWork(s, Goto(s, t, next), t, VoiceEntry(next));
  }

  lemma CalledProgress(s: State, t: Tid, entry: Pc)
    requires Inv(s) && s.fields.publication == Voice.Stopping && HasOwner(s) && Enabled(s, Called(t, entry))
    ensures Wired(Goto(s, t, entry)) && Progress(s, Goto(s, t, entry), false)
  {
    CallerIsGuest(s, t);
    NextOneOwner(s, Called(t, entry));
    GotoProgress(s, t, entry);
  }

  lemma SteppedProgress(s: State, t: Tid, choice: Choice)
    requires Inv(s) && s.fields.publication == Voice.Stopping && HasOwner(s) && Enabled(s, Stepped(t, choice))
    ensures Wired(Step(s, t, choice)) && Progress(s, Step(s, t, choice), t == Responsible(s))
  {
    if !InVoice(s, t) {
      if t == OwnerOf(s) { OwnerOwnStepProgress(s, choice); }
      else { GuestOwnStepProgress(s, t, choice); ResponsibleIsInVoice(s, t); }
    } else if t == OwnerOf(s) {
      OwnerVoiceStepProgress(s, choice);
    } else {
      VoiceStepInv(s, t, choice);
      BelowProgress(s, Voice.Stepped(t, choice.voice), VoiceStep(s, t, choice));
    }
  }

  /** A stopping generation keeps its number; its work never grows and shrinks with each turn of the responsible thread. */
  lemma StoppingProgresses(s: State, e: Event)
    requires Inv(s) && s.fields.publication == Voice.Stopping && HasOwner(s) && Enabled(s, e)
    ensures Inv(Next(s, e)) && Progress(s, Next(s, e), e.Stepped? && e.t == Responsible(s))
  {
    NextInv(s, e);
    match e
    case Called(t, entry) => CalledProgress(s, t, entry);
    case Stepped(t, choice) => SteppedProgress(s, t, choice);
    case _ => OutsideProgress(s, e);
  }

  lemma OutsideProgress(s: State, e: Event)
    requires Inv(s) && s.fields.publication == Voice.Stopping && HasOwner(s) && Enabled(s, e) && Inv(Next(s, e))
    requires !e.Called? && !e.Stepped?
    ensures Progress(s, Next(s, e), false)
  {
    match e
    case Reported(connection, silenced) => BelowProgress(s, Voice.Reported(connection, silenced), Next(s, e));
    case Disturbed(t) => WakingProgress(s, t);
    case VoiceDisturbed(t) => BelowProgress(s, Voice.Disturbed(t), Next(s, e));
  }

  lemma WakingProgress(s: State, t: Tid)
    requires Wired(s) && OneOwner(s) && s.fields.publication == Voice.Stopping && HasOwner(s) && t in s.threads
    ensures var s' := s.(threads := s.threads[t := Wake(s.threads[t])]); Wired(s') && Progress(s, s', false)
  {
    var s' := s.(threads := s.threads[t := Wake(s.threads[t])]);
    assert forall u <- s.threads :: IsOwner(s.threads[u]) ==> s'.threads[u] == s.threads[u];
    assert forall u <- s.threads :: IsOwner(s'.threads[u]) ==> IsOwner(s.threads[u]);
    SameOwner(s, s');
  }

  /** The responsible thread is the owner itself or stands inside the voice client. */
  lemma ResponsibleIsInVoice(s: State, t: Tid)
    requires Inv(s) && HasOwner(s) && t in s.threads && t != OwnerOf(s) && !InVoice(s, t)
    ensures t != Responsible(s)
  {
    NotInCall(s, t);
  }

  /** How many events of a run are turns of the thread responsible at that moment, until the generation is over. */
  ghost function ResponsibleTurns(s: State, events: seq<Event>): nat
    requires CanRun(s, events)
    decreases |events|
  {
    if events == [] || !HasOwner(s) then 0
    else (if events[0].Stepped? && Wired(s) && events[0].t == Responsible(s) then 1 else 0)
         + ResponsibleTurns(Next(s, events[0]), events[1..])
  }

  lemma WaitOverStays(s: State, e: Event, generation: nat)
    requires Inv(s) && Enabled(s, e) && generation <= s.fields.generation && WaitOver(s.fields, generation)
    ensures generation <= Next(s, e).fields.generation && WaitOver(Next(s, e).fields, generation)
  {
    if e.Stepped? && !InVoice(s, e.t) {
      var pc, at := s.threads[e.t], s.voice.threads[e.t];
      assert Fits(s.fields, s.log, s.voice.fields, e.t, pc, at);
      GenerationGrows(s.fields, s.log, s.voice.fields, e.t, pc, at, at == Voice.Returned(Voice.Good), e.choice);
    }
  }

  lemma GenerationGrows(f: Fields, log: seq<Observation>, v: Voice.Fields, t: Tid, pc: Pc, at: Voice.Pc, good: bool, choice: Choice)
    requires Fits(f, log, v, t, pc, at)
    ensures var g := PcSection(f, v.connection, pc, good, choice).fields;
      && f.generation <= g.generation
      && (f.publication == Voice.Idle && g.generation == f.generation ==> g.publication == Voice.Idle)
  {}

  lemma {:induction false} WaitOverStaysRun(s: State, events: seq<Event>, generation: nat)
    requires Inv(s) && CanRun(s, events) && generation <= s.fields.generation && WaitOver(s.fields, generation)
    ensures WaitOver(Run(s, events).fields, generation)
    decreases |events|
  {
    if events != [] {
      WaitOverStays(s, events[0], generation);
      NextInv(s, events[0]);
      WaitOverStaysRun(Next(s, events[0]), events[1..], generation);
    }
  }

  /**
   * No lost wake-up, across both clients.  Once a generation is stopping, and as soon as the responsible
   * threads have had the turns its work needs, whatever happened in between, the wait for it is over and
   * nobody sleeps on it.
   */
  lemma {:induction false} WaitersAreReleased(s: State, events: seq<Event>)
    requires Inv(s) && CanRun(s, events) && s.fields.publication == Voice.Stopping && HasOwner(s)
    requires ResponsibleTurns(s, events) >= Work(s)
    ensures var s' := Run(s, events);
      && WaitOver(s'.fields, s.fields.generation)
      && forall t <- s'.threads :: s'.threads[t].ReleaseWait? && s'.threads[t].generation == s.fields.generation ==>
           !s'.threads[t].asleep
    decreases |events|
  {
    WorkIsPositive(s);
    var next := Next(s, events[0]);
    StoppingProgresses(s, events[0]);
    RunInv(s, events);
    if next.fields.publication == Voice.Idle {
      WaitOverStaysRun(next, events[1..], s.fields.generation);
    } else {
      WaitersAreReleased(next, events[1..]);
    }
    SleepersFit(Run(s, events));
  }

  lemma WorkIsPositive(s: State)
    requires Wired(s) && HasOwner(s)
    ensures Work(s) > 0
  {}

  lemma SleepersFit(s: State)
    requires Inv(s)
    ensures forall t <- s.threads :: s.threads[t].ReleaseWait? && s.threads[t].asleep ==> !WaitOver(s.fields, s.threads[t].generation)
  {
    assert forall t <- s.threads :: Fits(s.fields, s.log, s.voice.fields, t, s.threads[t], s.voice.threads[t]);
  }

  // ---------------------------------------------------------------- ends out of turn

  /** The step by which a call of its own to end an interrupted transmission asks for the end of the active one. */
  predicate Cleans(s: State, e: Event) {
    e.Stepped? && e.t in s.threads && s.threads[e.t] == Clean(Alone) && s.fields.active.Some?
  }

  /** Events and runs whose out-of-turn ends meet a condition on the state they are asked in. */
  ghost predicate Careful(s: State, events: seq<Event>, safe: State -> bool)
    requires CanRun(s, events)
    decreases |events|
  {
    events == [] || ((Cleans(s, events[0]) ==> safe(s)) && Careful(Next(s, events[0]), events[1..], safe))
  }

  // ---------------------------------------------------------------- audio implies authorisation

  /** A press that has been granted and has yet to open its microphone. */
  predicate IsOpening(pc: Pc, at: Voice.Pc) { pc.PressVoice? && (at.PressEnter? || at.PressStart?) }

  ghost predicate NobodyOpens(s: State) {
    Wired(s) && forall u <- s.threads :: !IsOpening(s.threads[u], s.voice.threads[u])
  }

  /** Whoever is about to open the microphone holds the active transmission, and nobody has asked to end it. */
  ghost predicate OpeningsLive(s: State) {
    Wired(s) && forall u <- s.threads :: IsOpening(s.threads[u], s.voice.threads[u]) ==>
      s.fields.active == Some(s.threads[u].transmission) && Live(s.log, s.threads[u].transmission)
  }

  /** A microphone start has its transmission granted for its scope, and nobody has asked to end it. */
  predicate AuthorizedAfter(before: seq<Observation>, o: Observation) {
    o.Opened? ==> Granted(o.transmission, o.scope) in before && !WasEndAsked(before, o.transmission) && Ended(o.transmission) !in before
  }

  ghost predicate Authorized(log: seq<Observation>) {
    forall i :: 0 <= i < |log| ==> AuthorizedAfter(log[..i], log[i])
  }

  ghost predicate AudioInv(s: State) { Inv(s) && OpeningsLive(s) && Authorized(s.log) }

  lemma AuthorizedMore(log: seq<Observation>, o: Observation)
    requires Authorized(log) && AuthorizedAfter(log, o)
    ensures Authorized(log + [o])
  {
    var longer := log + [o];
    forall i | 0 <= i < |longer| ensures AuthorizedAfter(longer[..i], longer[i]) {
      assert longer[..i] == log[..i];
      if i == |log| { assert log[..i] == log; }
    }
  }

  lemma {:induction false} AuthorizedUnlessOpened(log: seq<Observation>, more: seq<Observation>)
    requires Authorized(log) && forall o <- more :: !o.Opened?
    ensures Authorized(log + more)
    decreases |more|
  {
    if more == [] {
      assert log + more == log;
    } else {
      AuthorizedMore(log, more[0]);
      AuthorizedUnlessOpened(log + [more[0]], more[1..]);
      assert log + more == log + [more[0]] + more[1..];
    }
  }

  /** A guest that does not clean up leaves the active transmission and the log alone. */
  lemma GuestKeepsActive(f: Fields, connection: Voice.Connection, pc: Pc, good: bool, open: bool, choice: Choice)
    requires !IsOwner(pc) && !(pc.Clean? && f.active.Some?)
    ensures PcSection(f, connection, pc, good, choice).fields.active == f.active && PcLog(f, pc, open, choice) == []
  {}

  /** A press comes to open its microphone only from its grant, which is then active and live. */
  lemma OpeningBegins(f: Fields, log: seq<Observation>, v: Voice.Fields, t: Tid, pc: Pc, at: Voice.Pc, good: bool, open: bool, choice: Choice)
    requires Fits(f, log, v, t, pc, at) && !IsOpening(pc, at)
    requires var next := PcSection(f, v.connection, pc, good, choice).next; IsOpening(next, VoiceEntry(next))
    ensures var section := PcSection(f, v.connection, pc, good, choice);
      && section.fields.active == Some(section.next.transmission) && Live(log, section.next.transmission)
      && PcLog(f, pc, open, choice) == []
  {
    OnlyGrantsOpen(f, v.connection, pc, good, choice);
  }

  lemma OnlyGrantsOpen(f: Fields, connection: Voice.Connection, pc: Pc, good: bool, choice: Choice)
    ensures var section := PcSection(f, connection, pc, good, choice);
      section.next.PressVoice? ==> pc.PressStored? && pc.granted == section.fields.active == Some(section.next.transmission)
  {}

  lemma OwnStepOpenings(s: State, t: Tid, choice: Choice)
    requires AudioInv(s) && Enabled(s, Stepped(t, choice)) && !InVoice(s, t)
    requires Cleans(s, Stepped(t, choice)) ==> NobodyOpens(s)
    ensures OpeningsLive(OwnStep(s, t, choice))
  {
    var s', section := OwnStep(s, t, choice), StepSection(s, t, choice);
    var f, v, pc, at := s.fields, s.voice.fields, s.threads[t], s.voice.threads[t];
    OwnStepFacts(s, t, choice);
    assert s.log + [] == s.log;
    forall u <- s'.threads | IsOpening(s'.threads[u], s'.voice.threads[u])
      ensures s'.fields.active == Some(s'.threads[u].transmission) && Live(s'.log, s'.threads[u].transmission)
    {
      assert Fits(f, s.log, v, t, pc, at);
      if u == t {
        OpeningBegins(f, s.log, v, t, pc, at, at == Voice.Returned(Voice.Good), s.voice.microphone, choice);
      } else {
        assert Fits(f, s.log, v, u, s.threads[u], s.voice.threads[u]);
        GuestKeepsActive(f, v.connection, pc, at == Voice.Returned(Voice.Good), s.voice.microphone, choice);
      }
    }
  }

  lemma VoiceStepOpenings(s: State, t: Tid, choice: Choice)
    requires AudioInv(s) && t in s.threads && InVoice(s, t)
    ensures OpeningsLive(VoiceStep(s, t, choice)) && Authorized(VoiceStep(s, t, choice).log)
  {
    var s', pc, at := VoiceStep(s, t, choice), s.threads[t], s.voice.threads[t];
    assert Fits(s.fields, s.log, s.voice.fields, t, pc, at);
    Voice.OthersOnlyWake(s.voice, t, choice.voice);
    if pc.PressVoice? && at.PressStart? { AuthorizedMore(s.log, Opened(pc.transmission, at.scope)); }
    forall u <- s'.threads | IsOpening(s'.threads[u], s'.voice.threads[u])
      ensures s'.fields.active == Some(s'.threads[u].transmission) && Live(s'.log, s'.threads[u].transmission)
    {
      assert IsOpening(s.threads[u], s.voice.threads[u]);
      VoiceStepKeepsLive(s, t, choice, s.threads[u].transmission);
    }
  }

  lemma VoiceStepKeepsLive(s: State, t: Tid, choice: Choice, transmission: Transmission)
    requires Wired(s) && t in s.threads
    ensures Live(VoiceStep(s, t, choice).log, transmission) == Live(s.log, transmission)
  {
    var pc, at := s.threads[t], s.voice.threads[t];
    if pc.PressVoice? && at.PressStart? { OpenedKeepsLog(s.log, Opened(pc.transmission, at.scope), transmission, Team); }
  }

  lemma PcLogOpensNothing(f: Fields, pc: Pc, open: bool, choice: Choice)
    ensures forall o <- PcLog(f, pc, open, choice) :: !o.Opened?
  {}

  lemma AudioNext(s: State, e: Event)
    requires AudioInv(s) && Enabled(s, e) && (Cleans(s, e) ==> NobodyOpens(s))
    ensures AudioInv(Next(s, e))
  {
    NextInv(s, e);
    if e.Stepped? {
      if InVoice(s, e.t) {
        VoiceStepOpenings(s, e.t, e.choice);
      } else {
        OwnStepOpenings(s, e.t, e.choice);
        PcLogOpensNothing(s.fields, s.threads[e.t], s.voice.microphone, e.choice);
        AuthorizedUnlessOpened(s.log, PcLog(s.fields, s.threads[e.t], s.voice.microphone, e.choice));
      }
    } else {
      OtherEventsOpenNothing(s, e);
    }
  }

  lemma OtherEventsOpenNothing(s: State, e: Event)
    requires OpeningsLive(s) && Enabled(s, e) && !e.Stepped? && Wired(Next(s, e))
    ensures OpeningsLive(Next(s, e))
  {
    assert forall u <- s.threads :: IsOpening(Next(s, e).threads[u], Next(s, e).voice.threads[u]) ==>
      IsOpening(s.threads[u], s.voice.threads[u]) && Next(s, e).threads[u] == s.threads[u];
  }

  lemma {:induction false} AudioRun(s: State, events: seq<Event>)
    requires AudioInv(s) && CanRun(s, events) && Careful(s, events, NobodyOpens)
    ensures AudioInv(Run(s, events))
    decreases |events|
  {
    if events != [] {
      AudioNext(s, events[0]);
      AudioRun(Next(s, events[0]), events[1..]);
    }
  }

  /**
   * Authorisation before audio.  In every run from the start in which nobody ends a transmission out of turn while its press
   * has yet to open the microphone, each microphone start comes after the server's grant of the same transmission for the
   * same scope, and before anyone asked to end it.
   */
  lemma MicrophoneOnlyWhileAuthorized(s: State, events: seq<Event>, i: nat)
    requires Init(s) && CanRun(s, events) && Careful(s, events, NobodyOpens)
    requires i < |Run(s, events).log| && Run(s, events).log[i].Opened?
    ensures var log := Run(s, events).log; var o := log[i];
      && (exists j | 0 <= j < i :: log[j] == Granted(o.transmission, o.scope))
      && (forall j | 0 <= j < i :: !(log[j].EndAsked? && log[j].transmission == o.transmission))
  {
    InitInv(s);
    AudioRun(s, events);
    var log := Run(s, events).log;
    assert AuthorizedAfter(log[..i], log[i]);
    var j :| 0 <= j < i && log[..i][j] == Granted(log[i].transmission, log[i].scope);
    assert log[j] == Granted(log[i].transmission, log[i].scope);
    forall k | 0 <= k < i ensures !(log[k].EndAsked? && log[k].transmission == log[i].transmission) {
      assert log[..i][k] == log[k];
    }
  }

  /** Whatever runs, a microphone start has been granted by the server for its scope. */
  lemma MicrophoneOnlyAfterGrant(s: State, events: seq<Event>, i: nat)
    requires Init(s) && CanRun(s, events)
    requires i < |Run(s, events).log| && Run(s, events).log[i].Opened?
    ensures var log := Run(s, events).log; exists j | 0 <= j < i :: log[j] == Granted(log[i].transmission, log[i].scope)
  {
    InitInv(s);
    RunInv(s, events);
    var log := Run(s, events).log;
    assert LawfulAfter(log[..i], log[i]);
    var j :| 0 <= j < i && log[..i][j] == Granted(log[i].transmission, log[i].scope);
    assert log[j] == Granted(log[i].transmission, log[i].scope);
  }

  /** Microphone starts stay authorised in every run from here whose ends out of turn meet the condition. */
  ghost predicate StaysAuthorized(s: State) {
    forall events :: CanRun(s, events) && Careful(s, events, NobodyOpens) ==> Authorized(Run(s, events).log)
  }

  /**
   * And that condition is exact: an end out of turn can be followed by a microphone start of the ended transmission exactly
   * if a press stands before its microphone start when the end is asked for.
   */
  lemma CleanKeepsAudioExactly(s: State, t: Tid, choice: Choice)
    requires AudioInv(s) && Cleans(s, Stepped(t, choice)) && Enabled(s, Stepped(t, choice))
    ensures StaysAuthorized(Next(s, Stepped(t, choice))) <==> NobodyOpens(s)
  {
    var e := Stepped(t, choice);
    if NobodyOpens(s) {
      AudioNext(s, e);
      forall events | CanRun(Next(s, e), events) && Careful(Next(s, e), events, NobodyOpens)
        ensures Authorized(Run(Next(s, e), events).log)
      {
        AudioRun(Next(s, e), events);
      }
    } else {
      var u :| u in s.threads && IsOpening(s.threads[u], s.voice.threads[u]);
      var events := AudioAfterEnd(s, t, choice, u);
    }
  }

  /** The press enters the voice client, if it has yet to, and starts the microphone of the ended transmission. */
  lemma AudioAfterEnd(s: State, t: Tid, choice: Choice, u: Tid) returns (events: seq<Event>)
    requires AudioInv(s) && Cleans(s, Stepped(t, choice)) && Enabled(s, Stepped(t, choice))
    requires u in s.threads && IsOpening(s.threads[u], s.voice.threads[u])
    ensures var s' := Next(s, Stepped(t, choice));
      CanRun(s', events) && Careful(s', events, NobodyOpens) && !Authorized(Run(s', events).log)
  {
    var s' := Next(s, Stepped(t, choice));
    var pc, at := s.threads[u], s.voice.threads[u];
    NextInv(s, Stepped(t, choice));
    CleanFacts(s, t, choice, u);
    assert Fits(s.fields, s.log, s.voice.fields, u, pc, at);
    if at.PressStart? {
      events := [Stepped(u, choice)];
      StartOpens(s', u, choice);
      OneStep(s', Stepped(u, choice));
    } else {
      var up := Next(s', Reported(Voice.Connected, true));
      var begun := VoiceStep(up, u, choice);
      PressBegins(up, u, choice);
      events := [Reported(Voice.Connected, true), Stepped(u, choice), Stepped(u, choice)];
      StartOpens(begun, u, choice);
      ThreeSteps(s', Reported(Voice.Connected, true), Stepped(u, choice), Stepped(u, choice));
    }
  }

  /** An end asked for out of turn leaves everybody else where they are. */
  lemma CleanFacts(s: State, t: Tid, choice: Choice, u: Tid)
    requires Inv(s) && Cleans(s, Stepped(t, choice)) && u in s.threads && s.threads[u].PressVoice?
    ensures var s' := Next(s, Stepped(t, choice));
      && Wired(s') && u in s'.threads && s'.threads[u] == s.threads[u] && s'.voice.threads[u] == s.voice.threads[u]
      && s'.voice.fields == s.voice.fields && s'.voice.microphone == s.voice.microphone
      && WasEndAsked(s'.log, s.fields.active.value)
  {
    EnterOthers(s.(log := s.log + PcLog(s.fields, s.threads[t], s.voice.microphone, choice)), t, StepSection(s, t, choice));
    var asked := EndAsked(s.fields.active.value, s.voice.microphone);
    assert AskLog(s.fields.active.value, s.voice.microphone, choice.ended)[0] == asked;
    assert asked in PcLog(s.fields, s.threads[t], s.voice.microphone, choice);
  }

  lemma PressBegins(s: State, u: Tid, choice: Choice)
    requires Wired(s) && u in s.threads && s.threads[u].PressVoice? && s.voice.threads[u].PressEnter?
    requires s.voice.fields.connection == Voice.Connected && s.voice.fields.publication == Voice.Idle
    ensures InVoice(s, u)
    ensures var s' := VoiceStep(s, u, choice);
      && Wired(s') && u in s'.threads && s'.threads == s.threads && s'.log == s.log
      && s'.voice.threads[u] == Voice.PressStart(s.voice.fields.generation + 1, s.voice.threads[u].scope)
  {}

  lemma StartOpens(s: State, u: Tid, choice: Choice)
    requires Wired(s) && u in s.threads && s.threads[u].PressVoice? && s.voice.threads[u].PressStart?
    requires WasEndAsked(s.log, s.threads[u].transmission)
    ensures InVoice(s, u) && !Authorized(VoiceStep(s, u, choice).log)
  {
    var longer := VoiceStep(s, u, choice).log;
    assert longer[..|s.log|] == s.log;
    assert !AuthorizedAfter(longer[..|s.log|], longer[|s.log|]);
  }

  lemma OneStep(s: State, e: Event)
    requires Enabled(s, e)
    ensures CanRun(s, [e]) && Run(s, [e]) == Next(s, e)
    ensures !Cleans(s, e) ==> Careful(s, [e], NobodyOpens)
  {}

  lemma ThreeSteps(s: State, a: Event, b: Event, c: Event)
    requires Enabled(s, a) && Enabled(Next(s, a), b) && Enabled(Next(Next(s, a), b), c)
    requires !Cleans(s, a) && !Cleans(Next(s, a), b) && !Cleans(Next(Next(s, a), b), c)
    ensures CanRun(s, [a, b, c]) && Careful(s, [a, b, c], NobodyOpens)
    ensures Run(s, [a, b, c]) == Next(Next(Next(s, a), b), c)
  {
    OneStep(Next(Next(s, a), b), c);
    assert [a, b, c][1..] == [b, c] && [b, c][1..] == [c];
  }

  // ---------------------------------------------------------------- the microphone is closed at ends

  predicate Closed(s: State) { !s.voice.microphone }

  ghost predicate SilentEnds(s: State) {
    !s.voice.stopBroke ==> forall o <- s.log :: o.EndAsked? ==> !o.open
  }

  ghost predicate ClosedInv(s: State) { Inv(s) && SilentEnds(s) }

  /** An owner asks for an end with the microphone closed, unless silencing it has broken. */
  lemma OwnAsksAreSilent(s: State, t: Tid, choice: Choice)
    requires Inv(s) && Enabled(s, Stepped(t, choice)) && !InVoice(s, t)
    requires Cleans(s, Stepped(t, choice)) ==> Closed(s)
    ensures !s.voice.stopBroke ==>
      forall o <- PcLog(s.fields, s.threads[t], s.voice.microphone, choice) :: o.EndAsked? ==> !o.open
  {
    var f, v, pc, at := s.fields, s.voice.fields, s.threads[t], s.voice.threads[t];
    assert Fits(f, s.log, v, t, pc, at);
    if pc.PressCancelEnd? || pc.PressRollbackEnd? || pc.PressUndoEnd? || pc.ReleaseEnd? {
      AsksAreQuiet(f, s.log, v, t, pc, at);
    }
  }

  lemma ClosedNext(s: State, e: Event)
    requires ClosedInv(s) && Enabled(s, e) && (Cleans(s, e) ==> Closed(s))
    ensures ClosedInv(Next(s, e))
  {
    NextInv(s, e);
    if e.Stepped? && !InVoice(s, e.t) { OwnAsksAreSilent(s, e.t, e.choice); }
  }

  lemma {:induction false} ClosedRun(s: State, events: seq<Event>)
    requires ClosedInv(s) && CanRun(s, events) && Careful(s, events, Closed)
    ensures ClosedInv(Run(s, events))
    decreases |events|
  {
    if events != [] {
      ClosedNext(s, events[0]);
      ClosedRun(Next(s, events[0]), events[1..]);
    }
  }

  /**
   * In every run from the start in which ends out of turn are asked for with the microphone closed, it is closed at every
   * end, unless a request to silence it has broken.
   */
  lemma MicrophoneClosedAtEnds(s: State, events: seq<Event>, o: Observation)
    requires Init(s) && CanRun(s, events) && Careful(s, events, Closed)
    requires !Run(s, events).voice.stopBroke && o in Run(s, events).log && o.EndAsked?
    ensures !o.open
  {
    InitInv(s);
    ClosedRun(s, events);
  }

  /** Ends stay silent in every run from here whose ends out of turn meet the condition. */
  ghost predicate StaysSilent(s: State) {
    forall events :: CanRun(s, events) && Careful(s, events, Closed) ==> SilentEnds(Run(s, events))
  }

  /** And that condition is exact. */
  lemma CleanIsSilentExactly(s: State, t: Tid, choice: Choice)
    requires ClosedInv(s) && Cleans(s, Stepped(t, choice)) && Enabled(s, Stepped(t, choice)) && !s.voice.stopBroke
    ensures StaysSilent(Next(s, Stepped(t, choice))) <==> Closed(s)
  {
    var e := Stepped(t, choice);
    if Closed(s) {
      ClosedNext(s, e);
      forall events | CanRun(Next(s, e), events) && Careful(Next(s, e), events, Closed)
        ensures SilentEnds(Run(Next(s, e), events))
      {
        ClosedRun(Next(s, e), events);
      }
    } else {
      var asked := EndAsked(s.fields.active.value, true);
      assert AskLog(s.fields.active.value, true, choice.ended)[0] == asked;
      assert asked in PcLog(s.fields, s.threads[t], true, choice);
      assert CanRun(Next(s, e), []) && Careful(Next(s, e), [], Closed) && !SilentEnds(Run(Next(s, e), []));
    }
  }

  // ---------------------------------------------------------------- a publication keeps its transmission

  predicate PublicationIdle(s: State) { s.fields.publication == Voice.Idle }

  /** A position that relies on the active transmission. */
  predicate Relies(pc: Pc) { IsOwner(pc) && !pc.PressServer? && !pc.PressStored? }

  /** Somebody relies on the active transmission: the publication is active, or an owner holds it. */
  ghost predicate TransmissionKept(s: State) {
    && (s.fields.publication == Voice.Active ==> s.fields.active.Some?)
    && forall t <- s.threads :: Relies(s.threads[t]) ==> s.fields.active.Some?
  }

  /**
   * Ending an interrupted transmission while nothing keeps the coordinator from it is right exactly
   * when no publication is in progress: otherwise it takes the transmission away from its publication.
   */
  lemma CleanIsRightExactlyWhenIdle(s: State, t: Tid, choice: Choice)
    requires Inv(s) && t in s.threads && s.threads[t] == Clean(Alone) && choice.ended
    ensures !InVoice(s, t)
    ensures TransmissionKept(OwnStep(s, t, choice)) <==>
      TransmissionKept(s) && (s.fields.publication == Voice.Idle || s.fields.active.None?)
  {
    CleanTakesActive(s, t, choice);
    if s.fields.active.None? {
      CleanOfNothing(s, t, choice);
    } else if s.fields.publication == Voice.Idle {
      CleanWhenIdle(s, t, choice);
    } else {
      EarlyCleanLoses(s, t, choice);
    }
  }

  lemma CleanOfNothing(s: State, t: Tid, choice: Choice)
    requires Inv(s) && t in s.threads && s.threads[t] == Clean(Alone) && choice.ended && !InVoice(s, t) && s.fields.active.None?
    ensures TransmissionKept(OwnStep(s, t, choice)) == TransmissionKept(s)
  {
    CleanTakesActive(s, t, choice);
    assert s.fields.(active := None) == s.fields;
    SameRelied(s, OwnStep(s, t, choice));
  }

  lemma CleanWhenIdle(s: State, t: Tid, choice: Choice)
    requires Inv(s) && t in s.threads && s.threads[t] == Clean(Alone) && choice.ended && !InVoice(s, t)
    requires s.fields.publication == Voice.Idle
    ensures TransmissionKept(OwnStep(s, t, choice)) && TransmissionKept(s)
  {
    OwnersRely(s);
    CleanTakesActive(s, t, choice);
    IdleIsKept(s);
    IdleIsKept(OwnStep(s, t, choice));
  }

  lemma CleanTakesActive(s: State, t: Tid, choice: Choice)
    requires Inv(s) && t in s.threads && s.threads[t] == Clean(Alone) && choice.ended
    ensures !InVoice(s, t)
    ensures var s' := OwnStep(s, t, choice);
      && Wired(s') && s'.threads.Keys == s.threads.Keys && s'.fields == s.fields.(active := None)
      && s'.threads[t] == Done(true) && s'.voice.threads[t] == Voice.Outside
      && forall u <- s.threads :: u != t ==> s'.threads[u] == s.threads[u] && s'.voice.threads[u] == s.voice.threads[u]
  {
    EnterOthers(s.(log := s.log + PcLog(s.fields, s.threads[t], s.voice.microphone, choice)), t, StepSection(s, t, choice));
  }

  lemma SameRelied(s: State, s': State)
    requires s'.fields == s.fields && s'.threads.Keys == s.threads.Keys
    requires forall u <- s.threads :: Relies(s'.threads[u]) == Relies(s.threads[u])
    ensures TransmissionKept(s') == TransmissionKept(s)
  {}

  lemma IdleIsKept(s: State)
    requires s.fields.publication == Voice.Idle && forall u <- s.threads :: Relies(s.threads[u]) ==> InTransition(s.fields)
    ensures TransmissionKept(s)
  {}

  lemma OwnersRely(s: State)
    requires Inv(s)
    ensures forall u <- s.threads :: Relies(s.threads[u]) ==> InTransition(s.fields)
  {
    assert forall u <- s.threads :: Fits(s.fields, s.log, s.voice.fields, u, s.threads[u], s.voice.threads[u]);
  }

  lemma EarlyCleanLoses(s: State, t: Tid, choice: Choice)
    requires Inv(s) && t in s.threads && s.threads[t] == Clean(Alone) && choice.ended && !InVoice(s, t)
    requires s.fields.publication != Voice.Idle && s.fields.active.Some?
    ensures !TransmissionKept(OwnStep(s, t, choice))
  {
    CleanTakesActive(s, t, choice);
    if s.fields.publication != Voice.Active {
      var o := OwnerOf(s);
      OwnerFacts(s);
      assert Relies(OwnStep(s, t, choice).threads[o]);
    }
  }

  /** An active publication whose transmission has been taken away. */
  ghost predicate Hollow(s: State) {
    Wired(s) && s.fields.publication == Voice.Active && s.fields.active.None? && !HasOwner(s)
  }

  lemma NoNewOwner(s: State, s': State, t: Tid)
    requires !HasOwner(s) && s'.threads.Keys == s.threads.Keys && t in s.threads && !IsOwner(s'.threads[t])
    requires forall u <- s.threads :: u != t ==> s'.threads[u] == s.threads[u] || s'.threads[u] == Wake(s.threads[u])
    ensures !HasOwner(s')
  {
    assert forall u <- s.threads :: IsOwner(s'.threads[u]) ==> IsOwner(s.threads[u]);
  }

  /** Cleaning up while the publication is active leaves it hollow. */
  lemma EarlyCleanHollows(s: State, t: Tid, choice: Choice)
    requires Inv(s) && t in s.threads && s.threads[t] == Clean(Alone) && choice.ended
    requires s.fields.publication == Voice.Active && !InVoice(s, t)
    ensures Hollow(OwnStep(s, t, choice))
  {
    OwnerInTransition(s);
    OwnStepFacts(s, t, choice);
    NoNewOwner(s, OwnStep(s, t, choice), t);
  }

  /** And the next release of a hollow publication strands its generation. */
  lemma HollowReleaseStrands(s: State, t: Tid, choice: Choice)
    requires Hollow(s) && t in s.threads && s.threads[t].ReleaseEnter? && !InVoice(s, t)
    ensures Stranded(OwnStep(s, t, choice)) && OwnStep(s, t, choice).threads[t].ReleaseWait?
  {
    OwnStepFacts(s, t, choice);
    NoNewOwner(s, OwnStep(s, t, choice), t);
  }

  /** The release of a hollow publication. */
  predicate Strands(s: State, e: Event) {
    e.Stepped? && e.t in s.threads && s.threads[e.t].ReleaseEnter? && s.fields.publication == Voice.Active && s.fields.active.None?
  }

  /** No other event strands a generation. */
  lemma StrandedExactlyByHollowRelease(s: State, e: Event)
    requires Inv(s) && Enabled(s, e) && !Stranded(s)
    ensures Stranded(Next(s, e)) <==> Strands(s, e)
  {
    if Strands(s, e) {
      OwnerInTransition(s);
      HollowReleaseStrands(s, e.t, e.choice);
    } else if e.Stepped? && !InVoice(s, e.t) {
      OwnStepStrandsNobody(s, e.t, e.choice);
    } else {
      OtherEventsStrandNobody(s, e);
    }
  }

  /** Anything but a thread's own step leaves fields and owners as they were. */
  lemma OtherEventsStrandNobody(s: State, e: Event)
    requires Inv(s) && Enabled(s, e) && !Stranded(s) && !(e.Stepped? && !InVoice(s, e.t))
    ensures !Stranded(Next(s, e))
  {
    OtherEventsKeepRoles(s, e);
    KeepsOwner(s, Next(s, e));
  }

  lemma OtherEventsKeepRoles(s: State, e: Event)
    requires Inv(s) && Enabled(s, e) && !(e.Stepped? && !InVoice(s, e.t))
    ensures SameRoles(s, Next(s, e))
  {
    if e.Called? { CallKeepsRoles(s, e.t, e.entry); }
    else if e.Disturbed? { WakingKeepsRoles(s, e.t); }
  }

  ghost predicate SameRoles(s: State, s': State) {
    && s'.fields == s.fields && s'.threads.Keys == s.threads.Keys
    && forall u <- s.threads :: IsOwner(s'.threads[u]) == IsOwner(s.threads[u]) && Relies(s'.threads[u]) == Relies(s.threads[u])
  }

  lemma WakingKeepsRoles(s: State, t: Tid)
    requires t in s.threads
    ensures SameRoles(s, s.(threads := s.threads[t := Wake(s.threads[t])]))
  {}

  lemma CallKeepsRoles(s: State, t: Tid, entry: Pc)
    requires Wired(s) && t in s.threads && (s.threads[t] == Outside || s.threads[t].Done?) && IsEntry(t, entry)
    ensures SameRoles(s, Goto(s, t, entry))
  {}

  lemma OwnStepStrandsNobody(s: State, t: Tid, choice: Choice)
    requires Inv(s) && Enabled(s, Stepped(t, choice)) && !Stranded(s) && !InVoice(s, t) && !Strands(s, Stepped(t, choice))
    ensures !Stranded(OwnStep(s, t, choice))
  {
    var pc, at := s.threads[t], s.voice.threads[t];
    assert Fits(s.fields, s.log, s.voice.fields, t, pc, at);
    OwnStepFacts(s, t, choice);
    if OwnStep(s, t, choice).fields.publication == Voice.Stopping {
      StoppingIsOwned(s.fields, s.log, s.voice.fields, t, pc, at, at == Voice.Returned(Voice.Good), choice);
      OwnerRemains(s, OwnStep(s, t, choice), t);
    }
  }

  lemma OwnerRemains(s: State, s': State, t: Tid)
    requires t in s.threads && s'.threads.Keys == s.threads.Keys
    requires forall u <- s.threads :: u != t ==> s'.threads[u] == s.threads[u] || s'.threads[u] == Wake(s.threads[u])
    requires IsOwner(s'.threads[t]) || (!IsOwner(s.threads[t]) && HasOwner(s))
    ensures HasOwner(s')
  {
    if IsOwner(s'.threads[t]) {
    } else {
      var u :| u in s.threads && IsOwner(s.threads[u]);
      assert IsOwner(s'.threads[u]);
    }
  }

  lemma StoppingIsOwned(f: Fields, log: seq<Observation>, v: Voice.Fields, t: Tid, pc: Pc, at: Voice.Pc, good: bool, choice: Choice)
    requires Fits(f, log, v, t, pc, at)
    requires !(pc.ReleaseEnter? && f.publication == Voice.Active && f.active.None?)
    requires PcSection(f, v.connection, pc, good, choice).fields.publication == Voice.Stopping
    ensures IsOwner(PcSection(f, v.connection, pc, good, choice).next) || (InTransition(f) && !IsOwner(pc))
  {}

  /** No owner appears in a stranded generation, and without one nothing ends it. */
  lemma StrandedNext(s: State, e: Event)
    requires Stranded(s) && Enabled(s, e)
    ensures Stranded(Next(s, e)) && Next(s, e).fields.generation == s.fields.generation
  {
    match e
    case Called(t, entry) => NoNewOwner(s, Goto(s, t, entry), t);
    case Stepped(t, choice) => StrandedStep(s, t, choice);
    case Reported(connection, silenced) =>
    case Disturbed(t) => StrandedDisturb(s, t);
    case VoiceDisturbed(t) =>
  }

  lemma StrandedDisturb(s: State, t: Tid)
    requires Stranded(s) && t in s.threads
    ensures Stranded(s.(threads := s.threads[t := Wake(s.threads[t])]))
  {
    NoNewOwner(s, s.(threads := s.threads[t := Wake(s.threads[t])]), t);
  }

  lemma StrandedStep(s: State, t: Tid, choice: Choice)
    requires Stranded(s) && t in s.threads
    ensures Stranded(Step(s, t, choice)) && Step(s, t, choice).fields.generation == s.fields.generation
  {
    assert !IsOwner(s.threads[t]);
    if InVoice(s, t) {
      Voice.OthersOnlyWake(s.voice, t, choice.voice);
    } else {
      StrandedSection(s.fields, s.voice.fields.connection, s.threads[t], s.voice.threads[t] == Voice.Returned(Voice.Good), choice);
      OwnStepFacts(s, t, choice);
      NoNewOwner(s, OwnStep(s, t, choice), t);
    }
  }

  lemma StrandedSection(f: Fields, connection: Voice.Connection, pc: Pc, good: bool, choice: Choice)
    requires f.publication == Voice.Stopping && !IsOwner(pc)
    ensures var section := PcSection(f, connection, pc, good, choice);
      && section.fields.publication == Voice.Stopping && section.fields.generation == f.generation
      && !IsOwner(section.next)
  {}

  /** Whatever happens afterwards, every wait for a stranded generation goes on for ever. */
  lemma {:induction false} StrandedForever(s: State, events: seq<Event>)
    requires Stranded(s) && CanRun(s, events)
    ensures Stranded(Run(s, events)) && !WaitOver(Run(s, events).fields, s.fields.generation)
    decreases |events|
  {
    if events != [] {
      StrandedNext(s, events[0]);
      StrandedForever(Next(s, events[0]), events[1..]);
    }
  }

  // ---------------------------------------------------------------- runs that end out of turn only when idle

  ghost predicate KeptInv(s: State) { Inv(s) && TransmissionKept(s) && !Stranded(s) }

  /** An owner's step keeps a transmission for whoever relies on it next. */
  lemma OwnerKeepsTransmission(f: Fields, log: seq<Observation>, v: Voice.Fields, t: Tid, pc: Pc, at: Voice.Pc, good: bool, choice: Choice)
    requires Fits(f, log, v, t, pc, at) && IsOwner(pc) && (Relies(pc) ==> f.active.Some?)
    ensures var section := PcSection(f, v.connection, pc, good, choice);
      section.fields.publication == Voice.Active || Relies(section.next) ==> section.fields.active.Some?
  {}

  /** A guest's step takes no transmission away, unless it cleans up. */
  lemma GuestKeepsTransmission(f: Fields, connection: Voice.Connection, pc: Pc, good: bool, choice: Choice)
    requires !IsOwner(pc) && (f.publication == Voice.Active ==> f.active.Some?)
    requires pc.Clean? ==> f.publication == Voice.Idle || f.active.None?
    ensures var section := PcSection(f, connection, pc, good, choice);
      && (section.fields.publication == Voice.Active || Relies(section.next) ==> section.fields.active.Some?)
      && (InTransition(f) && f.active.Some? ==> section.fields.active.Some?)
  {}

  lemma OthersKept(s: State, s': State, t: Tid)
    requires t in s.threads && s'.threads.Keys == s.threads.Keys && TransmissionKept(s)
    requires forall u <- s.threads :: u != t ==> s'.threads[u] == s.threads[u] || s'.threads[u] == Wake(s.threads[u])
    requires s'.fields.publication == Voice.Active || Relies(s'.threads[t]) ==> s'.fields.active.Some?
    requires s.fields.active.Some? && (exists u :: u in s.threads && u != t && Relies(s.threads[u])) ==> s'.fields.active.Some?
    ensures TransmissionKept(s')
  {
    forall u <- s'.threads | Relies(s'.threads[u]) ensures s'.fields.active.Some? {
      if u != t { assert Relies(s.threads[u]); }
    }
  }

  lemma OwnStepKept(s: State, t: Tid, choice: Choice)
    requires KeptInv(s) && Enabled(s, Stepped(t, choice)) && !InVoice(s, t)
    requires Cleans(s, Stepped(t, choice)) ==> PublicationIdle(s)
    ensures TransmissionKept(OwnStep(s, t, choice))
  {
    var pc, at := s.threads[t], s.voice.threads[t];
    assert Fits(s.fields, s.log, s.voice.fields, t, pc, at);
    OwnersRely(s);
    OwnStepFacts(s, t, choice);
    if IsOwner(pc) {
      OwnerKeepsTransmission(s.fields, s.log, s.voice.fields, t, pc, at, at == Voice.Returned(Voice.Good), choice);
    } else {
      GuestKeepsTransmission(s.fields, s.voice.fields.connection, pc, at == Voice.Returned(Voice.Good), choice);
    }
    OthersKept(s, OwnStep(s, t, choice), t);
  }

  lemma OtherEventsKeep(s: State, e: Event)
    requires KeptInv(s) && Enabled(s, e) && !(e.Stepped? && !InVoice(s, e.t))
    ensures TransmissionKept(Next(s, e))
  {
    OtherEventsKeepRoles(s, e);
    SameRelied(s, Next(s, e));
  }

  lemma KeptNext(s: State, e: Event)
    requires KeptInv(s) && Enabled(s, e) && (Cleans(s, e) ==> PublicationIdle(s))
    ensures KeptInv(Next(s, e))
  {
    NextInv(s, e);
    StrandedExactlyByHollowRelease(s, e);
    if e.Stepped? && !InVoice(s, e.t) { OwnStepKept(s, e.t, e.choice); } else { OtherEventsKeep(s, e); }
  }

  /** In runs whose ends out of turn find publication idle, no publication loses its transmission and no release is stranded. */
  lemma {:induction false} KeptRun(s: State, events: seq<Event>)
    requires KeptInv(s) && CanRun(s, events) && Careful(s, events, PublicationIdle)
    ensures KeptInv(Run(s, events))
    decreases |events|
  {
    if events != [] {
      KeptNext(s, events[0]);
      KeptRun(Next(s, events[0]), events[1..]);
    }
  }

  /** From the start, no such run comes to a publication without its transmission, or to a wait that nobody ends. */
  lemma NoReleaseIsStranded(s: State, events: seq<Event>)
    requires Init(s) && CanRun(s, events) && Careful(s, events, PublicationIdle)
    ensures var s' := Run(s, events); TransmissionKept(s') && !Hollow(s') && !Stranded(s')
  {
    InitInv(s);
    KeptRun(s, events);
  }
}
