/** Push-to-talk input: key chords become actions, and actions become presses of the authorised voice target. */
module PttInput {
  import opened Basics
  import Text

  datatype Action = TeamAction | SpecializationAction | GroupAction

  const ACTIONS: seq<Action> := [TeamAction, SpecializationAction, GroupAction]

  function Index(a: Action): (i: nat)
    ensures i < 3 && ACTIONS[i] == a
  {
    match a
    case TeamAction => 0
    case SpecializationAction => 1
    case GroupAction => 2
  }

  function ScopeFor(a: Action): VoiceScope {
    match a
    case TeamAction => Team
    case SpecializationAction => Specialization
    case GroupAction => Group
  }

  datatype DeviceKind = Keyboard | Mouse | GameController

  datatype Control = Control(kind: DeviceKind, usagePage: nat, code: nat, extended: bool, device: string)
  datatype Binding = Binding(action: Action, chord: seq<Control>)

  const LAST_BUTTON: nat := 5

  predicate ValidControl(c: Control) {
    && c.code != 0
    && match c.kind
       case Keyboard => c.usagePage == 0
       case Mouse => c.code <= LAST_BUTTON && c.usagePage == 0 && !c.extended
       case GameController => c.usagePage != 0 && !c.extended
  }

  // ---------------------------------------------------------------- validating bindings

  function Rank(kind: DeviceKind): nat {
    match kind
    case Keyboard => 0
    case Mouse => 1
    case GameController => 2
  }

  predicate ControlLess(a: Control, b: Control) {
    if a.kind != b.kind then Rank(a.kind) < Rank(b.kind)
    else if a.usagePage != b.usagePage then a.usagePage < b.usagePage
    else if a.code != b.code then a.code < b.code
    else if a.extended != b.extended then b.extended
    else Text.Less(a.device, b.device)
  }

  function Insert(c: Control, sorted: seq<Control>): seq<Control> {
    if sorted == [] || !ControlLess(sorted[0], c) then [c] + sorted else [sorted[0]] + Insert(c, sorted[1..])
  }

  function Normalized(chord: seq<Control>): seq<Control> {
    if chord == [] then [] else Insert(chord[0], Normalized(chord[1..]))
  }

  predicate Overlap(a: Control, b: Control) {
    && a.kind == b.kind && a.usagePage == b.usagePage && a.code == b.code && a.extended == b.extended
    && (a.device == "" || b.device == "" || a.device == b.device)
  }

  predicate ChordsOverlap(a: seq<Control>, b: seq<Control>) {
    |a| == |b| && forall i :: 0 <= i < |a| ==> Overlap(a[i], b[i])
  }

  datatype ErrorCode = EmptyChord | InvalidControl | DuplicateControl | DuplicateBinding | ConflictingBinding
  datatype BindingError = BindingError(code: ErrorCode, index: nat)

  predicate HasAdjacentTwins(chord: seq<Control>) { exists i :: 0 <= i < |chord| - 1 && chord[i] == chord[i + 1] }

  /** What is wrong with a chord by itself. */
  function ChordError(chord: seq<Control>): Option<ErrorCode> {
    if chord == [] then Some(EmptyChord)
    else if exists c :: c in chord && !ValidControl(c) then Some(InvalidControl)
    else if HasAdjacentTwins(chord) then Some(DuplicateControl)
    else None
  }

  /** Two bindings that cannot stand together: the same chord, or overlapping chords of different actions. */
  predicate Clash(a: Binding, b: Binding) {
    || Normalized(a.chord) == Normalized(b.chord)
    || (a.action != b.action && ChordsOverlap(Normalized(a.chord), Normalized(b.chord)))
  }

  ghost predicate AcceptableUpTo(bindings: seq<Binding>, n: nat)
    requires n <= |bindings|
  {
    && (forall i :: 0 <= i < n ==> ChordError(Normalized(bindings[i].chord)).None?)
    && (forall i, j :: 0 <= j < i < n ==> !Clash(bindings[i], bindings[j]))
  }

  ghost predicate Acceptable(bindings: seq<Binding>) { AcceptableUpTo(bindings, |bindings|) }

  /** A set of bindings is accepted exactly if it is acceptable; every error names a binding that is at fault. */
  method ValidateBindings(bindings: seq<Binding>) returns (errors: seq<BindingError>)
    ensures errors == [] <==> Acceptable(bindings)
    ensures forall e <- errors :: e.index < |bindings| && AtFault(bindings, e)
  {
    errors := [];
    for index := 0 to |bindings|
      invariant errors == [] <==> AcceptableUpTo(bindings, index)
      invariant forall e <- errors :: e.index < |bindings| && AtFault(bindings, e)
    {
      var binding := bindings[index];
      var chord := Normalized(binding.chord);
      if chord == [] {
        errors := errors + [BindingError(EmptyChord, index)];
      } else if exists c :: c in chord && !ValidControl(c) {
        errors := errors + [BindingError(InvalidControl, index)];
      } else if HasAdjacentTwins(chord) {
        errors := errors + [BindingError(DuplicateControl, index)];
      }
      var previous := FirstClash(bindings, index);
      if previous.Some? {
        errors := errors + [
          BindingError(if binding.action == bindings[previous.value].action then DuplicateBinding else ConflictingBinding, index)];
      }
    }
  }

  /** The first earlier binding that cannot stand together with this one. */
  method FirstClash(bindings: seq<Binding>, index: nat) returns (r: Option<nat>)
    requires index < |bindings|
    ensures r.None? <==> forall j :: 0 <= j < index ==> !Clash(bindings[index], bindings[j])
    ensures r.Some? ==> r.value < index && Clash(bindings[index], bindings[r.value])
  {
    for previous := 0 to index
      invariant forall j :: 0 <= j < previous ==> !Clash(bindings[index], bindings[j])
    {
      if Clash(bindings[index], bindings[previous]) { return Some(previous); }
    }
    return None;
  }

  predicate AtFault(bindings: seq<Binding>, e: BindingError)
    requires e.index < |bindings|
  {
    match e.code
    case DuplicateBinding => ClashesWith(bindings, e.index, true)
    case ConflictingBinding => ClashesWith(bindings, e.index, false)
    case _ => ChordError(Normalized(bindings[e.index].chord)) == Some(e.code)
  }

  predicate ClashesWith(bindings: seq<Binding>, index: nat, same: bool)
    requires index < |bindings|
  {
    exists j :: 0 <= j < index && Clash(bindings[index], bindings[j]) && (bindings[index].action == bindings[j].action) == same
  }

  // ---------------------------------------------------------------- from held controls to actions

  predicate HeldMatches(expected: Control, held: Control) {
    && expected.kind == held.kind && expected.usagePage == held.usagePage
    && expected.code == held.code && expected.extended == held.extended
    && (expected.device == "" || expected.device == held.device)
  }

  predicate BindingPressed(binding: Binding, held: seq<Control>) {
    forall expected <- binding.chord :: exists h <- held :: HeldMatches(expected, h)
  }

  /** A control is held as another one if they are the same but for the device, which may be left open. */
  lemma MatchesButForDevice(expected: Control, held: Control)
    ensures HeldMatches(expected, held) <==> held.(device := expected.device) == expected && expected.device in ["", held.device]
  {}

  /** An action is pressed while all controls of one of its chords are held. */
  predicate ActionHeld(bindings: seq<Binding>, held: seq<Control>, a: Action) {
    exists b <- bindings :: b.action == a && BindingPressed(b, held)
  }

  datatype Change = Change(action: Action, pressed: bool)

  datatype Engine = Engine(bindings: seq<Binding>, held: seq<Control>, pressed: map<Action, bool>)

  /** The pressed actions, computed afresh. */
  function Recomputed(bindings: seq<Binding>, held: seq<Control>): map<Action, bool> {
    map a | a in ACTIONS :: ActionHeld(bindings, held, a)
  }

  function ChangeOf(before: map<Action, bool>, after: map<Action, bool>, a: Action): seq<Change>
    requires a in before && a in after
  {
    if before[a] != after[a] then [Change(a, after[a])] else []
  }

  predicate Complete(pressed: map<Action, bool>) { forall a: Action :: a in pressed }

  function ChangesBetween(before: map<Action, bool>, after: map<Action, bool>): seq<Change>
    requires Complete(before) && Complete(after)
  {
    ChangeOf(before, after, TeamAction) + ChangeOf(before, after, SpecializationAction) + ChangeOf(before, after, GroupAction)
  }

  function Without(held: seq<Control>, control: Control): seq<Control> {
    if held == [] then [] else if held[0] == control then held[1..] else [held[0]] + Without(held[1..], control)
  }

  function WithoutDevice(held: seq<Control>, device: string): seq<Control> {
    if held == [] then []
    else (if held[0].device == device then [] else [held[0]]) + WithoutDevice(held[1..], device)
  }

  predicate NoRepeats(held: seq<Control>) { forall i, j :: 0 <= i < j < |held| ==> held[i] != held[j] }

  lemma {:induction false} WithoutHas(held: seq<Control>, control: Control)
    requires NoRepeats(held)
    ensures NoRepeats(Without(held, control))
    ensures forall c :: c in Without(held, control) <==> c in held && c != control
  {
    if held != [] {
      WithoutHas(held[1..], control);
      assert held == [held[0]] + held[1..];
      assert held[0] !in held[1..];
    }
  }

  lemma {:induction false} WithoutDeviceHas(held: seq<Control>, device: string)
    requires NoRepeats(held)
    ensures NoRepeats(WithoutDevice(held, device))
    ensures forall c :: c in WithoutDevice(held, device) <==> c in held && c.device != device
  {
    if held != [] {
      WithoutDeviceHas(held[1..], device);
      assert held == [held[0]] + held[1..];
      assert held[0] !in held[1..];
    }
  }

  /** A press or release of a control, the removal of a device, releasing everything, and new bindings. */
  datatype Event =
    | Pressed(control: Control)
    | Released(control: Control)
    | Removed(device: string)
    | ReleaseAll
    | Rebound(bindings: seq<Binding>)

  /** The controls held after an event. */
  function HeldAfter(e: Engine, event: Event): seq<Control> {
    match event
    case Pressed(c) => if ValidControl(c) && c.device != "" && c !in e.held then e.held + [c] else e.held
    case Released(c) => if ValidControl(c) && c.device != "" then Without(e.held, c) else e.held
    case Removed(device) => if device == "" then e.held else WithoutDevice(e.held, device)
    case ReleaseAll => []
    case Rebound(_) => []
  }

  ghost function After(e: Engine, event: Event): Engine {
    if event.Rebound? then
      if Acceptable(event.bindings) then Engine(event.bindings, [], map a | a in ACTIONS :: false) else e
    else Engine(e.bindings, HeldAfter(e, event), Recomputed(e.bindings, HeldAfter(e, event)))
  }

  class PushToTalkBindingEngine {
    var bindings: seq<Binding>
    var held: seq<Control>
    var pressed: map<Action, bool>

    constructor ()
      ensures View() == Engine([], [], map[TeamAction := false, SpecializationAction := false, GroupAction := false])
    {
      bindings, held := [], [];
      pressed := map[TeamAction := false, SpecializationAction := false, GroupAction := false];
    }

    function View(): Engine
      reads this
    {
      Engine(bindings, held, pressed)
    }

    /** Pressed actions agree with bindings and held controls, so an event that changes nothing needs no recalculation. */
    ghost predicate Valid()
      reads this
    {
      Fits(View())
    }

    method SetBindings(candidates: seq<Binding>) returns (accepted: bool, changes: seq<Change>)
      requires Valid()
      modifies this
      ensures Valid() && accepted == Acceptable(candidates)
      ensures View() == After(old(View()), Rebound(candidates))
      ensures changes == ChangesBetween(old(pressed), pressed)
    {
      var errors := ValidateBindings(candidates);
      if errors != [] {
        SameIsNoChange(pressed);
        return false, [];
      }
      changes := [];
      if pressed[TeamAction] { changes := changes + [Change(TeamAction, false)]; }
      if pressed[SpecializationAction] { changes := changes + [Change(SpecializationAction, false)]; }
      if pressed[GroupAction] { changes := changes + [Change(GroupAction, false)]; }
      ReleasedChanges(pressed);
      ReleasedFits(candidates);
      bindings := candidates;
      held := [];
      pressed := map a | a in ACTIONS :: false;
      return true, changes;
    }

    method ReleaseEverything() returns (changes: seq<Change>)
      requires Valid()
      modifies this
      ensures Valid() && View() == After(old(View()), ReleaseAll)
      ensures changes == ChangesBetween(old(pressed), pressed)
    {
      held := [];
      changes := Recalculate();
    }

    method OnInput(control: Control, down: bool) returns (changes: seq<Change>)
      requires Valid()
      modifies this
      ensures Valid() && View() == After(old(View()), if down then Pressed(control) else Released(control))
      ensures changes == ChangesBetween(old(pressed), pressed)
    {
      SameIsNoChange(pressed);
      if !ValidControl(control) || control.device == "" { return []; }
      if down && control !in held {
        held := held + [control];
      } else if !down && control in held {
        held := Without(held, control);
      } else {
        if !down { WithoutAbsent(held, control); }
        return [];
      }
      changes := Recalculate();
    }

    method OnDeviceRemoved(device: string) returns (changes: seq<Change>)
      requires Valid()
      modifies this
      ensures Valid() && View() == After(old(View()), Removed(device))
      ensures changes == ChangesBetween(old(pressed), pressed)
    {
      SameIsNoChange(pressed);
      if device == "" { return []; }
      held := WithoutDevice(held, device);
      changes := Recalculate();
    }

    method Recalculate() returns (changes: seq<Change>)
      requires Complete(pressed)
      modifies this`pressed
      ensures pressed == Recomputed(bindings, held) && Complete(pressed)
      ensures changes == ChangesBetween(old(pressed), pressed)
    {
      var before := pressed;
      var next := map[TeamAction := false, SpecializationAction := false, GroupAction := false];
      for i := 0 to |bindings|
        invariant next.Keys == {TeamAction, SpecializationAction, GroupAction}
        invariant forall a <- next :: next[a] == ActionHeld(bindings[..i], held, a)
      {
        assert bindings[..i + 1] == bindings[..i] + [bindings[i]];
        HeldMore(bindings, held, i);
        if BindingPressed(bindings[i], held) { next := next[bindings[i].action := true]; }
      }
      assert bindings[..|bindings|] == bindings;
      AllActions(next);
      changes := [];
      for i := 0 to |ACTIONS|
        invariant changes == (if i > 0 then ChangeOf(before, next, TeamAction) else [])
          + (if i > 1 then ChangeOf(before, next, SpecializationAction) else [])
          + (if i > 2 then ChangeOf(before, next, GroupAction) else [])
      {
        var a := ACTIONS[i];
        assert a == if i == 0 then TeamAction else if i == 1 then SpecializationAction else GroupAction;
        if next[a] != before[a] { changes := changes + [Change(a, next[a])]; }
      }
      pressed := next;
    }
  }

  lemma AllActions(pressed: map<Action, bool>)
    requires pressed.Keys == {TeamAction, SpecializationAction, GroupAction}
    ensures forall a: Action :: a in pressed && a in ACTIONS
  {
    forall a: Action ensures a in pressed && a in ACTIONS {
      assert ACTIONS[Index(a)] == a;
      match a case TeamAction => case SpecializationAction => case GroupAction =>
    }
  }

  lemma HeldMore(bindings: seq<Binding>, held: seq<Control>, i: nat)
    requires i < |bindings|
    ensures forall a :: ActionHeld(bindings[..i + 1], held, a) <==>
      ActionHeld(bindings[..i], held, a) || (bindings[i].action == a && BindingPressed(bindings[i], held))
  {
    var front, b := bindings[..i], bindings[i];
    assert bindings[..i + 1] == front + [b];
    forall a
      ensures ActionHeld(front + [b], held, a) <==> ActionHeld(front, held, a) || (b.action == a && BindingPressed(b, held))
    {
      assert b in front + [b];
      assert forall other :: other in front + [b] <==> other in front || other == b;
    }
  }

  lemma SameIsNoChange(pressed: map<Action, bool>)
    requires Complete(pressed)
    ensures ChangesBetween(pressed, pressed) == []
  {}

  lemma {:induction false} WithoutAbsent(held: seq<Control>, control: Control)
    requires control !in held
    ensures Without(held, control) == held
  {
    if held != [] { WithoutAbsent(held[1..], control); }
  }

  /** No acceptable chord is empty, so with nothing held nothing is pressed. */
  lemma NothingHeld(bindings: seq<Binding>)
    requires Acceptable(bindings)
    ensures forall a :: !ActionHeld(bindings, [], a)
  {
    forall b <- bindings ensures !BindingPressed(b, []) {
      var i :| 0 <= i < |bindings| && bindings[i] == b;
      assert ChordError(Normalized(bindings[i].chord)).None?;
      assert b.chord != [] && b.chord[0] in b.chord;
    }
  }

  /** Releasing every action. */
  lemma ReleasedChanges(before: map<Action, bool>)
    requires Complete(before)
    ensures var after := map a | a in ACTIONS :: false;
      && Complete(after)
      && ChangesBetween(before, after) ==
           (if before[TeamAction] then [Change(TeamAction, false)] else [])
           + (if before[SpecializationAction] then [Change(SpecializationAction, false)] else [])
           + (if before[GroupAction] then [Change(GroupAction, false)] else [])
  {
    forall a: Action ensures a in ACTIONS { assert ACTIONS[Index(a)] == a; }
  }

  lemma ReleasedFits(bindings: seq<Binding>)
    requires Acceptable(bindings)
    ensures Fits(Engine(bindings, [], map a | a in ACTIONS :: false))
  {
    NothingHeld(bindings);
    forall a: Action ensures a in ACTIONS { assert ACTIONS[Index(a)] == a; }
    assert (map a | a in ACTIONS :: false) == Recomputed(bindings, []);
  }

  /** The pressed actions are always those recomputed from bindings and held controls. */
  ghost predicate Fits(e: Engine) {
    Acceptable(e.bindings) && Complete(e.pressed) && e.pressed == Recomputed(e.bindings, e.held)
  }

  lemma AfterFits(e: Engine, event: Event)
    requires Fits(e)
    ensures Fits(After(e, event))
  {
    var e' := After(e, event);
    forall a: Action ensures a in e'.pressed { assert ACTIONS[Index(a)] == a; }
    if event.Rebound? && Acceptable(event.bindings) {
      NothingHeld(event.bindings);
      assert e'.pressed == Recomputed(e'.bindings, e'.held);
    }
  }

  /** The chord's control is among those held, on its own device if it names one. */
  predicate Down(expected: Control, held: seq<Control>) {
    exists h :: h in held && h.(device := expected.device) == expected && expected.device in ["", h.device]
  }

  /**
   * An action of whose every chord some control is not down is not pressed; one chord with all its controls down presses its
   * action.
   */
  ghost predicate PressedByChords(e: Engine) {
    && Complete(e.pressed)
    && (forall a: Action :: (forall b <- e.bindings :: b.action == a ==> exists c :: c in b.chord && !Down(c, e.held)) ==> !e.pressed[a])
    && (forall b <- e.bindings :: (forall c <- b.chord :: Down(c, e.held)) ==> e.pressed[b.action])
  }

  lemma DownIsMatched(expected: Control, held: seq<Control>)
    ensures Down(expected, held) <==> exists h <- held :: HeldMatches(expected, h)
  {
    forall h ensures HeldMatches(expected, h) <==> h.(device := expected.device) == expected && expected.device in ["", h.device] {
      MatchesButForDevice(expected, h);
    }
  }

  lemma BindingIsDown(binding: Binding, held: seq<Control>)
    ensures BindingPressed(binding, held) <==> forall c <- binding.chord :: Down(c, held)
  {
    forall c <- binding.chord ensures Down(c, held) <==> exists h <- held :: HeldMatches(c, h) { DownIsMatched(c, held); }
  }

  lemma ChordsPress(e: Engine)
    requires Complete(e.pressed) && e.pressed == Recomputed(e.bindings, e.held)
    ensures PressedByChords(e)
  {
    forall a: Action | forall b <- e.bindings :: b.action == a ==> exists c :: c in b.chord && !Down(c, e.held) ensures !e.pressed[a] {
      forall b <- e.bindings | b.action == a ensures !BindingPressed(b, e.held) { BindingIsDown(b, e.held); }
      assert e.pressed[a] == ActionHeld(e.bindings, e.held, a);
    }
    forall b <- e.bindings | forall c <- b.chord :: Down(c, e.held) ensures e.pressed[b.action] {
      BindingIsDown(b, e.held);
      assert ActionHeld(e.bindings, e.held, b.action);
    }
  }

  /**
   * After every event an action is pressed by the chords that are down, and the controls held are those before, with or without
   * the one the event is about; a control without a device or code changes nothing, and new bindings release everything.
   */
  lemma EventPresses(e: Engine, event: Event)
    requires Fits(e) && NoRepeats(e.held)
    ensures PressedByChords(After(e, event)) && NoRepeats(After(e, event).held)
    ensures var held := After(e, event).held;
      match event
      case Pressed(control) =>
        if control.code == 0 || control.device == "" then held == e.held
        else ValidControl(control) ==> forall c :: c in held <==> c in e.held || c == control
      case Released(control) =>
        if control.code == 0 || control.device == "" then held == e.held
        else ValidControl(control) ==> forall c :: c in held <==> c in e.held && c != control
      case Removed(device) => forall c :: c in held <==> c in e.held && (device != "" ==> c.device != device)
      case ReleaseAll => held == []
      case Rebound(bindings) => if Acceptable(bindings) then held == [] && After(e, event).bindings == bindings else After(e, event) == e
  {
    AfterFits(e, event);
    ChordsPress(After(e, event));
    if event.Released? { WithoutHas(e.held, event.control); }
    if event.Removed? { WithoutDeviceHas(e.held, event.device); }
  }

  // ---------------------------------------------------------------- the authorised target behind the engine

  datatype TargetCall = TargetPress(scope: VoiceScope, good: bool) | TargetRelease

  /** What an action change does: the action whose press is active, and the call made to the target. */
  function OnAction(active: Option<Action>, change: Change, good: bool): (Option<Action>, seq<TargetCall>) {
    if change.pressed then
      if active.Some? then (active, [])
      else (if good then Some(change.action) else None, [TargetPress(ScopeFor(change.action), good)])
    else if active == Some(change.action) then (None, [TargetRelease])
    else (active, [])
  }

  class AuthorizedPushToTalkInput {
    var active: Option<Action>
    ghost var calls: seq<TargetCall>

    constructor ()
      ensures active == None && calls == []
    {
      active, calls := None, [];
    }

    /** `good` is the target's answer, should it be pressed or released; the observer hears it, or that the press was refused. */
    method OnPushToTalkActionChanged(action: Action, pressed: bool, good: bool) returns (reported: Option<bool>)
      modifies this
      ensures (active, calls) == (OnAction(old(active), Change(action, pressed), good).0,
                                  old(calls) + OnAction(old(active), Change(action, pressed), good).1)
      ensures reported == if pressed then Some(good && old(active).None?) else if old(active) == Some(action) then Some(good) else None
      ensures calls == old(calls) +
        (if pressed && old(active).None?
         then [TargetPress(match action case TeamAction => Team case SpecializationAction => Specialization case GroupAction => Group, good)]
         else if !pressed && old(active) == Some(action) then [TargetRelease] else [])
      ensures active == if pressed && old(active).None? then (if good then Some(action) else None)
        else if !pressed && old(active) == Some(action) then None else old(active)
    {
      if pressed {
        if active.Some? {
          assert calls + [] == calls;
          return Some(false);
        }
        calls := calls + [TargetPress(ScopeFor(action), good)];
        if good { active := Some(action); }
        return Some(good);
      } else if active == Some(action) {
        calls := calls + [TargetRelease];
        active := None;
        return Some(good);
      }
      assert calls + [] == calls;
      return None;
    }
  }

  /** Engine and input, all notifications between them and all calls to the target. */
  datatype World = World(engine: Engine, active: Option<Action>, notes: seq<Change>, calls: seq<TargetCall>)

  /** The changes of an event, delivered one after the other; `good` holds the target's answers by action. */
  function Deliver(w: World, changes: seq<Change>, good: map<Action, bool>): World
    decreases |changes|
  {
    if changes == [] then w
    else
      var change := changes[0];
      var (active, calls) := OnAction(w.active, change, change.action in good && good[change.action]);
      Deliver(w.(active := active, notes := w.notes + [change], calls := w.calls + calls), changes[1..], good)
  }

  ghost function Next(w: World, event: Event, good: map<Action, bool>): World
    requires Complete(w.engine.pressed) && Complete(After(w.engine, event).pressed)
  {
    Deliver(w.(engine := After(w.engine, event)), ChangesBetween(w.engine.pressed, After(w.engine, event).pressed), good)
  }

  /** The last state an action was reported in. */
  function Reported(notes: seq<Change>, a: Action): bool {
    if notes == [] then false
    else if notes[|notes| - 1].action == a then notes[|notes| - 1].pressed
    else Reported(notes[..|notes| - 1], a)
  }

  /** Every notification of an action reports a change of its state. */
  predicate Alternates(notes: seq<Change>, a: Action) {
    notes == [] ||
    (Alternates(notes[..|notes| - 1], a)
     && (notes[|notes| - 1].action == a ==> notes[|notes| - 1].pressed != Reported(notes[..|notes| - 1], a)))
  }

  /** Whether a press of the target is still to be released; none if its calls are out of turn. */
  function OpenPress(calls: seq<TargetCall>): Option<bool> {
    if calls == [] then Some(false)
    else
      match OpenPress(calls[..|calls| - 1])
      case None => None
      case Some(open) =>
        (match calls[|calls| - 1]
         case TargetPress(_, good) => if open then None else Some(good)
         case TargetRelease => if open then Some(false) else None)
  }

  /** Apart from the engine: what was reported, and what the target was told. */
  ghost predicate Told(w: World, pressed: map<Action, bool>) {
    && Complete(pressed)
    && (forall a: Action :: Reported(w.notes, a) == pressed[a] && Alternates(w.notes, a))
    && OpenPress(w.calls) == Some(w.active.Some?)
    && (w.active.Some? ==> pressed[w.active.value])
  }

  ghost predicate Inv(w: World) { Fits(w.engine) && Told(w, w.engine.pressed) }

  lemma NoteReported(notes: seq<Change>, change: Change, a: Action)
    ensures Reported(notes + [change], a) == if change.action == a then change.pressed else Reported(notes, a)
    ensures Alternates(notes + [change], a) <==>
      Alternates(notes, a) && (change.action == a ==> change.pressed != Reported(notes, a))
  {
    assert (notes + [change])[..|notes|] == notes;
  }

  lemma CallsMore(calls: seq<TargetCall>, call: TargetCall)
    requires OpenPress(calls).Some? && call.TargetPress? != OpenPress(calls).value
    ensures OpenPress(calls + [call]) == Some(call.TargetPress? && call.good)
  {
    assert (calls + [call])[..|calls|] == calls;
  }

  lemma NoteTold(w: World, pressed: map<Action, bool>, change: Change, good: bool)
    requires Told(w, pressed) && pressed[change.action] != change.pressed
    ensures var (active, calls) := OnAction(w.active, change, good);
      Told(w.(active := active, notes := w.notes + [change], calls := w.calls + calls), pressed[change.action := change.pressed])
  {
    forall a: Action
      ensures Reported(w.notes + [change], a) == pressed[change.action := change.pressed][a] && Alternates(w.notes + [change], a)
    {
      NoteReported(w.notes, change, a);
    }
    var calls := OnAction(w.active, change, good).1;
    if calls == [] {
      assert w.calls + calls == w.calls;
    } else {
      CallsMore(w.calls, calls[0]);
      assert calls == [calls[0]];
    }
  }

  /** Changes of different actions, each of them new. */
  ghost predicate Fresh(changes: seq<Change>, pressed: map<Action, bool>) {
    && Complete(pressed)
    && (forall i :: 0 <= i < |changes| ==> pressed[changes[i].action] != changes[i].pressed)
    && (forall i, j :: 0 <= i < j < |changes| ==> changes[i].action != changes[j].action)
  }

  function Applied(pressed: map<Action, bool>, changes: seq<Change>): map<Action, bool>
    decreases |changes|
  {
    if changes == [] then pressed else Applied(pressed[changes[0].action := changes[0].pressed], changes[1..])
  }

  lemma {:induction false} DeliverTold(w: World, pressed: map<Action, bool>, changes: seq<Change>, good: map<Action, bool>)
    requires Told(w, pressed) && Fresh(changes, pressed)
    ensures Told(Deliver(w, changes, good), Applied(pressed, changes))
    ensures Deliver(w, changes, good).engine == w.engine
    decreases |changes|
  {
    if changes != [] {
      var change := changes[0];
      var answer := change.action in good && good[change.action];
      var (active, calls) := OnAction(w.active, change, answer);
      var w' := w.(active := active, notes := w.notes + [change], calls := w.calls + calls);
      NoteTold(w, pressed, change, answer);
      DeliverTold(w', pressed[change.action := change.pressed], changes[1..], good);
    }
  }

  lemma ApplyChangeOf(pressed: map<Action, bool>, before: map<Action, bool>, after: map<Action, bool>, a: Action)
    requires Complete(before) && Complete(after) && Complete(pressed) && pressed[a] == before[a]
    ensures Applied(pressed, ChangeOf(before, after, a)) == pressed[a := after[a]]
  {
    if before[a] == after[a] {
      assert pressed[a := after[a]] == pressed;
    } else {
      assert [Change(a, after[a])][1..] == [];
    }
  }

  lemma ChangesAreFresh(before: map<Action, bool>, after: map<Action, bool>)
    requires Complete(before) && Complete(after)
    ensures Fresh(ChangesBetween(before, after), before)
    ensures Applied(before, ChangesBetween(before, after)) == after
  {
    var t, s, g := ChangeOf(before, after, TeamAction), ChangeOf(before, after, SpecializationAction), ChangeOf(before, after, GroupAction);
    ApplyAppend(before, t + s, g);
    ApplyAppend(before, t, s);
    var one := before[TeamAction := after[TeamAction]];
    var two := one[SpecializationAction := after[SpecializationAction]];
    ApplyChangeOf(before, before, after, TeamAction);
    ApplyChangeOf(one, before, after, SpecializationAction);
    ApplyChangeOf(two, before, after, GroupAction);
    var three := two[GroupAction := after[GroupAction]];
    forall a: Action ensures a in three && a in after && three[a] == after[a] {
      match a case TeamAction => case SpecializationAction => case GroupAction =>
    }
    assert three == after;
  }

  lemma {:induction false} ApplyAppend(pressed: map<Action, bool>, a: seq<Change>, b: seq<Change>)
    ensures Applied(pressed, a + b) == Applied(Applied(pressed, a), b)
    decreases |a|
  {
    if a == [] {
      assert a + b == b;
    } else {
      assert (a + b)[1..] == a[1..] + b;
      ApplyAppend(pressed[a[0].action := a[0].pressed], a[1..], b);
    }
  }

  lemma NextInv(w: World, event: Event, good: map<Action, bool>)
    requires Inv(w)
    ensures Complete(After(w.engine, event).pressed) && Inv(Next(w, event, good))
    ensures Next(w, event, good).engine == After(w.engine, event)
  {
    AfterFits(w.engine, event);
    var before, after := w.engine.pressed, After(w.engine, event).pressed;
    var moved := w.(engine := After(w.engine, event));
    ChangesAreFresh(before, after);
    assert Told(moved, before);
    DeliverTold(moved, before, ChangesBetween(before, after), good);
  }

  datatype Input = Input(event: Event, good: map<Action, bool>)

  ghost function Run(w: World, inputs: seq<Input>): (r: World)
    requires Inv(w)
    ensures Inv(r)
    decreases |inputs|
  {
    if inputs == [] then w
    else
      NextInv(w, inputs[0].event, inputs[0].good);
      Run(Next(w, inputs[0].event, inputs[0].good), inputs[1..])
  }

  function Start(): World {
    World(Engine([], [], map a | a in ACTIONS :: false), None, [], [])
  }

  lemma StartInv()
    ensures Inv(Start())
  {
    var e := Start().engine;
    forall a: Action ensures a in e.pressed { assert ACTIONS[Index(a)] == a; }
    assert e.pressed == Recomputed(e.bindings, e.held);
  }

  /**
   * Over every run of device events, rebinding and releasing: what is pressed is what bindings and held controls make it,
   * each action's notifications alternate, and an active target press stands for an action that is held.
   */
  lemma RunKeepsFaith(inputs: seq<Input>, a: Action)
    ensures Inv(Start())
    ensures var w := Run(Start(), inputs);
      && a in w.engine.pressed && w.engine.pressed[a] == ActionHeld(w.engine.bindings, w.engine.held, a)
      && Alternates(w.notes, a) && Reported(w.notes, a) == w.engine.pressed[a]
      && (w.active == Some(a) ==> ActionHeld(w.engine.bindings, w.engine.held, a))
      && OpenPress(w.calls) == Some(w.active.Some?)
  {
    StartInv();
  }

  /** And no control is held twice, so that what each event does to the held controls and the pressed actions is as stated above. */
  lemma {:induction false} RunHoldsOnce(w: World, inputs: seq<Input>)
    requires Inv(w) && NoRepeats(w.engine.held)
    ensures NoRepeats(Run(w, inputs).engine.held) && PressedByChords(Run(w, inputs).engine)
    decreases |inputs|
  {
    if inputs == [] {
      ChordsPress(w.engine);
    } else {
      NextInv(w, inputs[0].event, inputs[0].good);
      EventPresses(w.engine, inputs[0].event);
      RunHoldsOnce(Next(w, inputs[0].event, inputs[0].good), inputs[1..]);
    }
  }

  /** After releasing everything, or accepting new bindings, no press of the target is left unreleased. */
  lemma ReleasingLeavesNoPress(inputs: seq<Input>, event: Event, good: map<Action, bool>)
    requires event == ReleaseAll || (event.Rebound? && Acceptable(event.bindings))
    ensures Inv(Start())
    ensures var w := Run(Start(), inputs);
      Complete(After(w.engine, event).pressed) && OpenPress(Next(w, event, good).calls) == Some(false)
  {
    StartInv();
    var w := Run(Start(), inputs);
    NextInv(w, event, good);
    NothingHeld(After(w.engine, event).bindings);
  }
}
