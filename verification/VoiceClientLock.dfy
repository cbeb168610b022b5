/**
 * The voice client's fields as an object, with one method per critical section.
 *
 * Each method is written as the client writes it, and does exactly what the section function of the
 * protocol model does: so what is proved there about every interleaving is about these methods.
 */
module VoiceClientLock {
  import opened Basics
  import opened VoiceClient

  class Client {
    var connection: Connection
    var publication: Publication
    var generation: nat
    var activeScope: Option<VoiceScope>
    var lastStop: Outcome

    function View(): Fields
      reads this
    {
      Fields(connection, publication, generation, activeScope, lastStop)
    }

    constructor ()
      ensures View() == INITIAL_FIELDS
    {
      connection, publication, generation := Disconnected, Idle, 0;
      activeScope, lastStop := None, Good;
    }

    method BeginPress(scope: VoiceScope) returns (next: Pc, notify: bool)
      modifies this
      ensures Section(View(), next, notify) == PressEnterSection(old(View()), scope)
    {
      notify := false;
      if connection != Connected { return Returned(InvalidState), notify; }
      if publication != Idle { return Returned(InvalidState), notify; }
      generation := generation + 1;
      publication := Starting;
      activeScope := None;
      lastStop := Good;
      next := PressStart(generation, scope);
    }

    method CheckPress(mine: nat, scope: VoiceScope, started: Outcome) returns (next: Pc, notify: bool)
      modifies this
      ensures Section(View(), next, notify) == PressCheckSection(old(View()), mine, scope, started)
    {
      if started == Good && mine == generation && publication == Starting && connection == Connected {
        publication := Active;
        activeScope := Some(scope);
        return Returned(Good), true;
      }
      var cancel := started == Good && mine == generation && publication != Idle;
      next := if cancel then PressStop(mine, started) else PressQuery(mine, started);
      notify := false;
    }

    method FinishPress(mine: nat, started: Outcome, stopped: Outcome) returns (next: Pc, notify: bool)
      modifies this
      ensures Section(View(), next, notify) == PressFinishSection(old(View()), mine, started, stopped)
    {
      notify := mine == generation;
      if mine == generation {
        publication := Idle;
        activeScope := None;
        lastStop := stopped;
      }
      if started != Good { return Returned(started), notify; }
      if stopped != Good { return Returned(stopped), notify; }
      next := Returned(InvalidState);
    }

    method BeginRelease(closing: bool) returns (next: Pc, notify: bool)
      modifies this
      ensures Section(View(), next, notify) == ReleaseEnterSection(old(View()), closing)
    {
      notify := false;
      if publication == Idle { return AfterRelease(closing, InvalidState), notify; }
      if publication == Starting {
        publication := Stopping;
        return ReleaseWait(generation, closing, true), notify;
      }
      if publication == Stopping { return ReleaseWait(generation, closing, true), notify; }
      publication := Stopping;
      next := ReleaseStop(generation, closing);
    }

    method WakeRelease(mine: nat, closing: bool) returns (next: Pc)
      ensures Section(View(), next, false) == ReleaseWakeSection(View(), mine, closing)
    {
      if generation != mine || publication == Idle {
        next := AfterRelease(closing, lastStop);
      } else {
        next := ReleaseWait(mine, closing, true);
      }
    }

    method FinishRelease(mine: nat, closing: bool, stopped: Outcome) returns (next: Pc, notify: bool)
      modifies this
      ensures Section(View(), next, notify) == ReleaseFinishSection(old(View()), mine, closing, stopped)
    {
      notify := mine == generation;
      if mine == generation {
        publication := Idle;
        activeScope := None;
        lastStop := stopped;
      }
      next := AfterRelease(closing, stopped);
    }

    method BeginConnect() returns (next: Pc)
      modifies this
      ensures Section(View(), next, false) == ConnectEnterSection(old(View()))
    {
      if connection != Disconnected { return Returned(InvalidState); }
      connection := Connecting;
      next := ConnectTransport;
    }

    method BeginDisconnect() returns (next: Pc)
      modifies this
      ensures Section(View(), next, false) == CloseEnterSection(old(View()))
    {
      if connection == Disconnected {
        activeScope := None;
        return Returned(Good);
      }
      next := ReleaseEnter(true);
    }

    method FinishDisconnect() returns (next: Pc)
      modifies this
      ensures Section(View(), next, false) == CloseFinishSection(old(View()))
    {
      connection := Disconnected;
      activeScope := None;
      next := Returned(Good);
    }

    method OnTransportStateChanged(state: Connection) returns (notify: bool)
      modifies this
      ensures Section(View(), Outside, notify) == StateChangedSection(old(View()), state)
    {
      notify := false;
      connection := state;
      if state != Connected && activeScope.Some? {
        activeScope := None;
      }
      if state != Connected && publication == Active {
        publication := Idle;
        lastStop := Good;
        notify := true;
      } else if state != Connected && publication == Starting {
        publication := Stopping;
      }
    }
  }
}
