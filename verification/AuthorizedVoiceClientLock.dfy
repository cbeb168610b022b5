/** The coordinator's fields as an object, with one method per critical section, as in the voice client. */
module AuthorizedVoiceClientLock {
  import opened Basics
  import Voice = VoiceClient
  import opened AuthorizedVoiceClient

  class Coordinator {
    var enabled: bool
    var membership: Option<Version>
    var publication: Voice.Publication
    var generation: nat
    var active: Option<Transmission>
    var voiceStart: bool
    var lastRelease: bool

    function View(): Fields
      reads this
    {
      Fields(enabled, membership, publication, generation, active, voiceStart, lastRelease)
    }

    constructor ()
      ensures View() == Fields(false, None, Voice.Idle, 0, None, false, false)
    {
      enabled, membership, publication, generation := false, None, Voice.Idle, 0;
      active, voiceStart, lastRelease := None, false, false;
    }

    method BeginPress(scope: VoiceScope, connected: bool) returns (next: Pc, notify: bool)
      modifies this
      ensures Section(View(), next, notify) == PressEnterSection(old(View()), connected, scope)
    {
      notify := false;
      if !enabled || membership.None? || !connected { return Done(false), notify; }
      if publication != Voice.Idle || active.Some? { return Done(false), notify; }
      generation := generation + 1;
      publication := Voice.Starting;
      lastRelease := true;
      next := PressServer(generation, scope, membership.value);
    }

    method StorePress(mine: nat, scope: VoiceScope, granted: Option<Transmission>) returns (next: Pc, notify: bool)
      modifies this
      ensures Section(View(), next, notify) == PressStoredSection(old(View()), mine, scope, granted)
    {
      notify := false;
      if granted.None? {
        if mine == generation {
          publication := Voice.Idle;
          notify := true;
        }
        return Done(false), notify;
      }
      var cancelled := true;
      if mine == generation {
        active := granted;
        cancelled := publication == Voice.Stopping;
        voiceStart := !cancelled;
      }
      next := if cancelled then PressCancelEnd(mine, granted.value) else PressVoice(mine, scope, granted.value);
    }

    method Withdraw(mine: nat, ended: bool) returns (next: Pc, notify: bool)
      modifies this
      ensures Section(View(), next, notify) == WithdrawSection(old(View()), mine, ended)
    {
      notify := mine == generation;
      if mine == generation {
        if ended {
          active := None;
          lastRelease := true;
        } else {
          lastRelease := false;
        }
        publication := Voice.Idle;
      }
      next := Done(false);
    }

    method VoiceDone(mine: nat, transmission: Transmission, succeeded: bool) returns (next: Pc)
      modifies this
      ensures Section(View(), next, false) == PressVoiceDoneSection(old(View()), mine, transmission, succeeded)
    {
      voiceStart := false;
      next := if succeeded then PressConfirm(mine, transmission) else PressRollbackEnd(mine, transmission);
    }

    method Confirm(mine: nat, transmission: Transmission) returns (next: Pc, notify: bool)
      modifies this
      ensures Section(View(), next, notify) == PressConfirmSection(old(View()), mine, transmission)
    {
      if mine == generation && publication == Voice.Starting {
        publication := Voice.Active;
        return Done(true), true;
      }
      return PressUndoVoice(mine, transmission), false;
    }

    method BeginRelease(after: After) returns (next: Pc, notify: bool)
      modifies this
      ensures Section(View(), next, notify) == ReleaseEnterSection(old(View()), after)
    {
      notify := false;
      if publication == Voice.Idle { return AfterRelease(after, false), notify; }
      if publication == Voice.Stopping { return ReleaseWait(generation, after, true, true), notify; }
      var cancelStart, transmission := false, None;
      if publication == Voice.Starting {
        publication := Voice.Stopping;
        cancelStart := voiceStart;
      } else {
        publication := Voice.Stopping;
        transmission := active;
      }
      if cancelStart {
        next := ReleaseCancel(generation, after);
      } else if transmission.None? {
        next := ReleaseWait(generation, after, false, true);
      } else {
        next := ReleaseVoice(generation, transmission.value, after);
      }
    }

    method WakeRelease(mine: nat, after: After, stopped: bool) returns (next: Pc)
      ensures Section(View(), next, false) == ReleaseWakeSection(View(), mine, after, stopped)
    {
      if generation != mine || publication == Voice.Idle {
        next := AfterRelease(after, if stopped then lastRelease else false);
      } else {
        next := ReleaseWait(mine, after, true, stopped);
      }
    }

    method FinishRelease(mine: nat, ended: bool, stopped: bool, after: After) returns (next: Pc, notify: bool)
      modifies this
      ensures Section(View(), next, notify) == ReleaseFinishSection(old(View()), mine, ended, stopped, after)
    {
      var result := if !ended then false else stopped;
      notify := mine == generation;
      if mine == generation {
        if ended { active := None; }
        publication := Voice.Idle;
        lastRelease := result;
      }
      next := AfterRelease(after, result);
    }

    /** `ended` is the server's answer; it is asked for only when a transmission is active. */
    method EndInterrupted(after: After, ended: bool) returns (next: Pc)
      modifies this
      ensures Section(View(), next, false) == CleanSection(old(View()), after, ended)
    {
      if active.Some? {
        if !ended { return Done(false); }
        active := None;
      }
      next := if after.Alone? then Done(true) else Close(after);
    }

    method Suspend(after: After) returns (next: Pc)
      modifies this
      ensures Section(View(), next, false) == SuspendSection(old(View()), after)
    {
      enabled := false;
      var publicationActive := publication != Voice.Idle;
      next := if publicationActive then ReleaseEnter(after) else Clean(after);
    }

    method Resume(version: Version) returns (next: Pc)
      modifies this
      ensures Section(View(), next, false) == EnableSection(old(View()), version)
    {
      membership := Some(version);
      enabled := true;
      next := Done(true);
    }

    method ForgetMembership(ok: bool) returns (next: Pc)
      modifies this
      ensures Section(View(), next, false) == ForgetSection(old(View()), ok)
    {
      membership := None;
      next := Done(ok);
    }
  }
}
